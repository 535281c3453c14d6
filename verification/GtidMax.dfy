/**
 The member with the highest GTID: the first of maximal end among the texts whose end is not zero.
 */
module GtidMax {
  import opened Gtid

  /** The parsed texts with a non-zero end, or the error of the first text that does not parse. */
  function Collect(texts: seq<string>): Result<seq<GTID>> {
    if texts == [] then
      Ok([])
    else
      match ParseGTID(texts[0])
      case Err(e) => Err(e)
      case Ok(g) =>
        match Collect(texts[1..])
        case Err(e) => Err(e)
        case Ok(gs) => Ok((if g.end == 0 then [] else [g]) + gs)
  }

  /** The right one only if its end is strictly higher. */
  function Better(a: GTID, b: GTID): GTID {
    if b.end > a.end then b else a
  }

  function Winner(gs: seq<GTID>): GTID {
    if gs == [] then ZERO
    else if |gs| == 1 then gs[0]
    else Better(Winner(gs[..|gs| - 1]), gs[|gs| - 1])
  }

  function Best(texts: seq<string>): Result<GTID> {
    match Collect(texts)
    case Err(e) => Err(e)
    case Ok(gs) => Ok(Winner(gs))
  }

  method CompareGTIDs(gtids: seq<GTID>) returns (max: GTID)
    ensures max == Winner(gtids)
  {
    if |gtids| == 0 {
      return ZERO;
    }
    max := gtids[0];
    assert gtids[..1] == [gtids[0]];
    for i := 1 to |gtids|
      invariant max == Winner(gtids[..i])
    {
      assert gtids[..i + 1][..i] == gtids[..i];
      if gtids[i].end > max.end {
        max := gtids[i];
      }
    }
    assert gtids[..|gtids|] == gtids;
  }

  /** `gs` in front of what was collected from the rest. */
  function Before(gs: seq<GTID>, rest: Result<seq<GTID>>): Result<seq<GTID>> {
    match rest
    case Err(e) => Err(e)
    case Ok(hs) => Ok(gs + hs)
  }

  lemma BeforeTwice(gs: seq<GTID>, hs: seq<GTID>, rest: Result<seq<GTID>>)
    ensures Before(gs, Before(hs, rest)) == Before(gs + hs, rest)
    ensures Before([], rest) == rest
  {
    if rest.Ok? {
      assert gs + (hs + rest.value) == (gs + hs) + rest.value;
      assert [] + rest.value == rest.value;
    }
  }

  method GetMaxGTIDMember(texts: seq<string>) returns (r: Result<GTID>)
    ensures r == Best(texts)
  {
    hide ParseGTID, Winner, Before;
    var gtids := [];
    BeforeTwice([], [], Collect(texts));
    assert texts[0..] == texts;
    for i := 0 to |texts|
      invariant Collect(texts) == Before(gtids, Collect(texts[i..]))
    {
      CollectStep(texts, i, gtids);
      match ParseGTID(texts[i]) {
        case Err(e) => return Err(e);
        case Ok(g) =>
          if g.end != 0 {
            gtids := gtids + [g];
          }
      }
    }
    CollectNothing(texts, gtids);
    var max := CompareGTIDs(gtids);
    r := Ok(max);
  }

  lemma CollectStep(texts: seq<string>, i: nat, gtids: seq<GTID>)
    requires i < |texts|
    ensures match ParseGTID(texts[i])
            case Err(e) => Before(gtids, Collect(texts[i..])) == Err(e)
            case Ok(g) =>
              Before(gtids, Collect(texts[i..])) ==
              Before(if g.end == 0 then gtids else gtids + [g], Collect(texts[i + 1..]))
  {
    hide ParseGTID;
    assert texts[i..][1..] == texts[i + 1..];
    if ParseGTID(texts[i]).Ok? {
      var g := ParseGTID(texts[i]).value;
      var head := if g.end == 0 then [] else [g];
      BeforeTwice(gtids, head, Collect(texts[i + 1..]));
      assert gtids + [] == gtids;
    }
  }

  lemma CollectNothing(texts: seq<string>, gtids: seq<GTID>)
    ensures Before(gtids, Collect(texts[|texts|..])) == Ok(gtids)
  {
    assert gtids + [] == gtids;
  }

  // ----- The result for a list from the results for its parts -----

  function Combine(a: Result<GTID>, b: Result<GTID>): Result<GTID> {
    match (a, b)
    case (Err(e), _) => Err(e)
    case (Ok(_), Err(e)) => Err(e)
    case (Ok(x), Ok(y)) => Ok(Better(x, y))
  }

  lemma {:induction false} CollectAppend(xs: seq<string>, ys: seq<string>)
    ensures Collect(xs + ys) ==
            match (Collect(xs), Collect(ys))
            case (Err(e), _) => Err(e)
            case (Ok(_), Err(e)) => Err(e)
            case (Ok(gs), Ok(hs)) => Ok(gs + hs)
  {
    hide ParseGTID;
    if xs == [] {
      assert xs + ys == ys;
      if Collect(ys).Ok? { assert [] + Collect(ys).value == Collect(ys).value; }
    } else {
      CollectAppend(xs[1..], ys);
      assert (xs + ys)[0] == xs[0] && (xs + ys)[1..] == xs[1..] + ys;
      if ParseGTID(xs[0]).Ok? && Collect(xs[1..]).Ok? && Collect(ys).Ok? {
        var g, gs, hs := ParseGTID(xs[0]).value, Collect(xs[1..]).value, Collect(ys).value;
        var head := if g.end == 0 then [] else [g];
        assert head + (gs + hs) == (head + gs) + hs;
      }
    }
  }

  predicate AllPositive(gs: seq<GTID>) {
    forall i | 0 <= i < |gs| :: gs[i].end > 0
  }

  lemma {:induction false} WinnerAppend(gs: seq<GTID>, hs: seq<GTID>)
    requires AllPositive(gs) && AllPositive(hs)
    ensures Winner(gs + hs) == Better(Winner(gs), Winner(hs))
    decreases |hs|
  {
    if hs == [] {
      assert gs + hs == gs;
      WinnerPositive(gs);
    } else if gs == [] {
      assert gs + hs == hs;
      WinnerPositive(hs);
    } else {
      var front := hs[..|hs| - 1];
      WinnerAppend(gs, front);
      assert (gs + hs)[..|gs + hs| - 1] == gs + front;
      if front == [] {
        assert gs + front == gs;
      }
    }
  }

  lemma {:induction false} WinnerPositive(gs: seq<GTID>)
    requires AllPositive(gs)
    ensures gs != [] ==> Winner(gs).end > 0
    ensures gs == [] ==> Winner(gs) == ZERO
    decreases |gs|
  {
    if |gs| > 1 {
      WinnerPositive(gs[..|gs| - 1]);
    }
  }

  lemma ParsedEnd(text: string)
    ensures ParseGTID(text).Ok? ==> ParseGTID(text).value.end >= 0
  {
    hide Submatch;
  }

  lemma {:induction false} CollectPositive(texts: seq<string>)
    ensures Collect(texts).Ok? ==> AllPositive(Collect(texts).value)
  {
    hide ParseGTID;
    if texts != [] {
      ParsedEnd(texts[0]);
      CollectPositive(texts[1..]);
    }
  }

  /** Choosing from a list is combining the choices from its parts; the zero GTID is the choice from nothing. */
  lemma BestIsHomomorphic(xs: seq<string>, ys: seq<string>)
    ensures Best(xs + ys) == Combine(Best(xs), Best(ys))
    ensures Best([]) == Ok(ZERO)
    ensures Combine(Best(xs), Ok(ZERO)) == Best(xs) == Combine(Ok(ZERO), Best(xs))
  {
    hide ParseGTID, Winner;
    CollectAppend(xs, ys);
    CollectPositive(xs);
    CollectPositive(ys);
    if Collect(xs).Ok? {
      WinnerPositive(Collect(xs).value);
      if Collect(ys).Ok? {
        WinnerAppend(Collect(xs).value, Collect(ys).value);
      }
    }
    WinnerPositive([]);
  }

  // ----- The choice, without reference to the order of work -----

  /** `g` is the parse of entry `i`, no entry has a higher end and no earlier one the same. */
  ghost predicate FirstMaximum(texts: seq<string>, i: nat, g: GTID) {
    && i < |texts| && ParseGTID(texts[i]) == Ok(g) && g.end > 0
    && (forall j | 0 <= j < |texts| :: ParseGTID(texts[j]).Ok? && ParseGTID(texts[j]).value.end <= g.end)
    && (forall j | 0 <= j < i :: ParseGTID(texts[j]).value.end < g.end)
  }

  ghost predicate AllZero(texts: seq<string>) {
    forall j | 0 <= j < |texts| :: ParseGTID(texts[j]).Ok? && ParseGTID(texts[j]).value.end == 0
  }

  /** The first text that does not parse is `i`, with error `e`. */
  ghost predicate FirstError(texts: seq<string>, i: nat, e: Error) {
    && i < |texts| && ParseGTID(texts[i]) == Err(e)
    && (forall j | 0 <= j < i :: ParseGTID(texts[j]).Ok?)
  }

  /** What the choice should be. */
  ghost predicate IsChoice(texts: seq<string>, r: Result<GTID>) {
    match r
    case Err(e) => exists i: nat :: FirstError(texts, i, e)
    case Ok(g) => (g == ZERO && AllZero(texts)) || exists i: nat :: FirstMaximum(texts, i, g)
  }

  lemma BestOne(text: string)
    ensures Best([text]) ==
            match ParseGTID(text) case Err(e) => Err(e) case Ok(g) => Ok(if g.end == 0 then ZERO else g)
  {
    hide ParseGTID;
    assert [text][1..] == [];
    assert Collect([]) == Ok([]);
    if ParseGTID(text).Ok? {
      var g := ParseGTID(text).value;
      var none: seq<GTID> := [];
      assert [g] + none == [g] && none + none == none;
    }
  }

  /** The result is the right choice. */
  lemma {:induction false} BestIsChoice(texts: seq<string>)
    ensures IsChoice(texts, Best(texts))
    decreases |texts|
  {
    hide ParseGTID, Best, Collect;
    if texts == [] {
      BestIsHomomorphic([], []);
    } else {
      var front, last := texts[..|texts| - 1], texts[|texts| - 1];
      assert texts == front + [last];
      BestIsChoice(front);
      BestOne(last);
      ParsedEnd(last);
      BestIsHomomorphic(front, [last]);
      ChoiceExtends(front, last, Best(front));
    }
  }

  lemma ChoiceExtends(front: seq<string>, last: string, r: Result<GTID>)
    requires IsChoice(front, r) && (ParseGTID(last).Ok? ==> ParseGTID(last).value.end >= 0)
    ensures IsChoice(front + [last],
                     Combine(r, match ParseGTID(last)
                                case Err(e) => Err(e)
                                case Ok(g) => Ok(if g.end == 0 then ZERO else g)))
  {
    hide ParseGTID;
    var texts := front + [last];
    assert forall j | 0 <= j < |front| :: texts[j] == front[j];
    assert texts[|front|] == last;
    match r
    case Err(e) =>
      var i: nat :| FirstError(front, i, e);
      assert FirstError(texts, i, e);
    case Ok(g) =>
      match ParseGTID(last)
      case Err(e) => assert FirstError(texts, |front|, e);
      case Ok(h) =>
        if h.end > g.end {
          assert FirstMaximum(texts, |front|, h);
        } else if g.end > 0 {
          var i: nat :| FirstMaximum(front, i, g);
          assert FirstMaximum(texts, i, g);
        }
  }

  /** There is only one right choice. */
  lemma ChoiceIsUnique(texts: seq<string>, r: Result<GTID>, q: Result<GTID>)
    requires IsChoice(texts, r) && IsChoice(texts, q)
    ensures r == q
  {
    hide ParseGTID;
    match (r, q)
    case (Err(e), Err(f)) =>
      var i: nat :| FirstError(texts, i, e);
      var j: nat :| FirstError(texts, j, f);
      assert i == j;
    case (Ok(g), Ok(h)) =>
      if g != ZERO || h != ZERO {
        if i: nat, j: nat :| FirstMaximum(texts, i, g) && FirstMaximum(texts, j, h) {
          assert i == j;
        }
      }
    case _ =>
  }

  /**
   The call returns the first error, or the first entry of maximal non-zero end, or the zero GTID if all ends
   are zero; and nothing else.
   */
  lemma BestIff(texts: seq<string>, r: Result<GTID>)
    ensures Best(texts) == r <==> IsChoice(texts, r)
  {
    BestIsChoice(texts);
    if IsChoice(texts, r) {
      ChoiceIsUnique(texts, r, Best(texts));
    }
  }

  /** The texts "0" and "1" are not skipped: one of them anywhere makes the whole call fail. */
  lemma ZeroOrOneFails(texts: seq<string>, i: nat)
    requires i < |texts| && texts[i] in {"0", "1"}
    ensures Best(texts).Err?
  {
    hide Best;
    BestIsChoice(texts);
    assert ParseGTID(texts[i]) == Err(ZeroOrOne);
  }
}
