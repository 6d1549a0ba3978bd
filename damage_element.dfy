/** The third notation parser: every `\d+d\d+` match anywhere in the text
    becomes a die description with minimum roll 1, and every `+N`/`-N`
    match adds to a running static total. Die counts and sizes must fit a
    signed 32-bit integer or the parse fails naming the offending token; a
    static token that does not fit counts as 0. */
module DamageElements {
  import opened Combat
  import opened Notation
  import DiceContexts

  /** `rollNumber` dice rolling from `rollMin` to `rollMax`. */
  datatype Die = Die(rollNumber: int, rollMin: int, rollMax: int)

  /** Builds a die description holding exactly the values given. */
  function NewDie(rollNumber: int, rollMin: int, rollMax: int): (d: Die)
    ensures d.rollNumber == rollNumber && d.rollMin == rollMin && d.rollMax == rollMax
  {
    Die(rollNumber, rollMin, rollMax)
  }

  datatype DamageElement = DamageElement(dieElements: seq<Die>, staticElements: seq<int>)

  /** Builds an element holding exactly the dice and static values given. */
  function New(dieElements: seq<Die>, staticElements: seq<int>): (e: DamageElement)
    ensures e.dieElements == dieElements && e.staticElements == staticElements
  {
    DamageElement(dieElements, staticElements)
  }

  function DieNumberError(token: string): string
  {
    "Cannot parse die number '" + token + "' to integer!"
  }

  function DieSizeError(token: string): string
  {
    "Cannot parse die size '" + token + "' to integer!"
  }

  // ---------------------------------------------------------------------
  // Dice

  /** The die read from one `NdS` match (the text before and after its
      `d`), or the error for the first of the two numbers that does not fit
      a 32-bit integer. */
  function SpanDie(s: string, m: DieSpan): (r: Result<Die, string>)
    requires ValidSpan(s, m)
    ensures r.Ok? <==> InI32(SpanCount(s, m)) && InI32(SpanSize(s, m))
    ensures r.Ok? ==> r.value == Die(SpanCount(s, m), 1, SpanSize(s, m))
  {
    if !InI32(SpanCount(s, m)) then Err(DieNumberError(s[m.start..m.sep]))
    else if !InI32(SpanSize(s, m)) then Err(DieSizeError(s[m.sep + 1..m.stop]))
    else Ok(Die(SpanCount(s, m), 1, SpanSize(s, m)))
  }

  predicate AllValid(s: string, ms: seq<DieSpan>)
  {
    forall i :: 0 <= i < |ms| ==> ValidSpan(s, ms[i])
  }

  /** Index of the first match that does not read, or `|ms|` when all do. */
  function FirstFailure(s: string, ms: seq<DieSpan>): (k: nat)
    requires AllValid(s, ms)
    ensures k <= |ms|
    ensures forall i :: 0 <= i < k ==> SpanDie(s, ms[i]).Ok?
    ensures k < |ms| ==> SpanDie(s, ms[k]).Err?
  {
    if |ms| == 0 then 0
    else if SpanDie(s, ms[0]).Err? then 0
    else 1 + FirstFailure(s, ms[1..])
  }

  /** The dice of all matches in order, or the first match's error. */
  function SpansDice(s: string, ms: seq<DieSpan>): (r: Result<seq<Die>, string>)
    requires AllValid(s, ms)
    ensures r.Ok? <==> FirstFailure(s, ms) == |ms|
    ensures r.Ok? ==> |r.value| == |ms| && forall i :: 0 <= i < |ms| ==> r.value[i] == SpanDie(s, ms[i]).value
    ensures r.Err? ==> r.error == SpanDie(s, ms[FirstFailure(s, ms)]).error
  {
    if |ms| == 0 then Ok([])
    else match SpanDie(s, ms[0])
      case Err(e) => Err(e)
      case Ok(d) =>
        match SpansDice(s, ms[1..])
        case Err(e) => Err(e)
        case Ok(ds) => Ok([d] + ds)
  }

  /** The dice of the whole notation. */
  function DieElements(notation: string): Result<seq<Die>, string>
  {
    SpansDice(notation, PlainDieSpans(notation, 0))
  }

  /** Reads every `NdS` match in order into a die with minimum roll 1,
      stopping at the first count or size that does not fit 32 bits. */
  method ParseDieElements(notation: string) returns (r: Result<seq<Die>, string>)
    ensures r == DieElements(notation)
  {
    var capture := PlainDieSpans(notation, 0);
    var dieElements: seq<Die> := [];
    for i := 0 to |capture|
      invariant |dieElements| == i
      invariant forall k :: 0 <= k < i ==> SpanDie(notation, capture[k]).Ok? && dieElements[k] == SpanDie(notation, capture[k]).value
    {
      var m := capture[i];
      var nDie := SpanCount(notation, m);
      if !InI32(nDie) {
        FailsAt(notation, capture, i);
        return Err(DieNumberError(notation[m.start..m.sep]));
      }
      var sDie := SpanSize(notation, m);
      if !InI32(sDie) {
        FailsAt(notation, capture, i);
        return Err(DieSizeError(notation[m.sep + 1..m.stop]));
      }
      dieElements := dieElements + [NewDie(nDie, 1, sDie)];
    }
    AllRead(notation, capture, dieElements);
    return Ok(dieElements);
  }

  /** A match that fails after matches that all read decides the error. */
  lemma FailsAt(s: string, ms: seq<DieSpan>, k: nat)
    requires AllValid(s, ms) && k < |ms|
    requires forall i :: 0 <= i < k ==> SpanDie(s, ms[i]).Ok?
    requires SpanDie(s, ms[k]).Err?
    ensures SpansDice(s, ms) == Err(SpanDie(s, ms[k]).error)
  {
    assert FirstFailure(s, ms) == k;
  }

  /** When every match reads, the dice are the ones read. */
  lemma AllRead(s: string, ms: seq<DieSpan>, ds: seq<Die>)
    requires AllValid(s, ms) && |ds| == |ms|
    requires forall i :: 0 <= i < |ms| ==> SpanDie(s, ms[i]).Ok? && ds[i] == SpanDie(s, ms[i]).value
    ensures SpansDice(s, ms) == Ok(ds)
  {
    assert FirstFailure(s, ms) == |ms|;
    var r := SpansDice(s, ms);
    assert forall i :: 0 <= i < |ms| ==> r.value[i] == ds[i];
    assert r.value == ds;
  }

  /** Every match's count and size fit 32 bits. */
  predicate AllFit(s: string, ms: seq<DieSpan>)
    requires AllValid(s, ms)
  {
    forall i :: 0 <= i < |ms| ==> InI32(SpanCount(s, ms[i])) && InI32(SpanSize(s, ms[i]))
  }

  /** Reading a list of matches succeeds exactly when every count and size
      fits 32 bits, and then yields one die per match, in order. */
  lemma SpansDiceSpec(s: string, ms: seq<DieSpan>)
    requires AllValid(s, ms)
    ensures SpansDice(s, ms).Ok? <==> AllFit(s, ms)
    ensures SpansDice(s, ms).Ok? ==>
              |SpansDice(s, ms).value| == |ms|
              && forall i :: 0 <= i < |ms| ==> SpansDice(s, ms).value[i] == Die(SpanCount(s, ms[i]), 1, SpanSize(s, ms[i]))
  {
    var k := FirstFailure(s, ms);
    if k < |ms| {
      assert !(InI32(SpanCount(s, ms[k])) && InI32(SpanSize(s, ms[k])));
    }
  }

  /** The parse succeeds exactly when every match's count and size fit 32
      bits, and then yields one die per match, in order, each with minimum
      roll 1. */
  lemma DieElementsSpec(notation: string)
    ensures DieElements(notation).Ok? <==> AllFit(notation, PlainDieSpans(notation, 0))
    ensures DieElements(notation).Ok? ==>
              |DieElements(notation).value| == |PlainDieSpans(notation, 0)|
              && forall i :: 0 <= i < |PlainDieSpans(notation, 0)| ==>
                   DieElements(notation).value[i].rollMin == 1
                   && DieElements(notation).value[i].rollNumber == SpanCount(notation, PlainDieSpans(notation, 0)[i])
                   && DieElements(notation).value[i].rollMax == SpanSize(notation, PlainDieSpans(notation, 0)[i])
  {
    var ms := PlainDieSpans(notation, 0);
    assert AllValid(notation, ms);
    SpansDiceSpec(notation, ms);
    assert DieElements(notation) == SpansDice(notation, ms);
  }

  /** The first die read agrees with the second parser's regular die, and
      no die is read exactly when that parser finds no regular die. */
  lemma FirstDieMatchesRegular(notation: string)
    ensures DieElements(notation) == Ok([]) <==> DiceContexts.ParseRegularDie(notation).None?
    ensures DieElements(notation).Ok? && |DieElements(notation).value| > 0 ==>
              DieElements(notation).value[0]
              == Die(DiceContexts.ParseRegularDie(notation).value.0, 1, DiceContexts.ParseRegularDie(notation).value.1)
  {
    var ms := PlainDieSpans(notation, 0);
    DieElementsSpec(notation);
    if FirstPlainDie(notation, 0).Some? {
      assert ms[0] == FirstPlainDie(notation, 0).value;
      if DieElements(notation).Ok? {
        assert DieElements(notation).value != [];
      }
    }
  }

  // ---------------------------------------------------------------------
  // Static modifiers

  /** A static token's contribution: its value when it fits 32 bits, else 0. */
  function Fit(v: int): int
  {
    if InI32(v) then v else 0
  }

  /** The contributions of the static tokens, in order. */
  function TokenValues(ts: seq<string>): (vs: seq<int>)
    requires forall i :: 0 <= i < |ts| ==> IsSignedToken(ts[i])
    ensures |vs| == |ts|
    ensures forall i :: 0 <= i < |ts| ==> vs[i] == Fit(SignedValue(ts[i]))
  {
    if |ts| == 0 then [] else TokenValues(ts[..|ts| - 1]) + [Fit(SignedValue(ts[|ts| - 1]))]
  }

  /** The static total of the whole notation. */
  function StaticElements(notation: string): int
  {
    Sum(TokenValues(SignedTokens(notation, 0)))
  }

  /** Adds up every `+N`/`-N` token; a token that does not fit 32 bits
      adds 0. Never fails. */
  method ParseStaticElements(notation: string) returns (r: Result<int, string>)
    ensures r == Ok(StaticElements(notation))
  {
    var capture := SignedTokens(notation, 0);
    var runningTotal := 0;
    for k := 0 to |capture|
      invariant runningTotal == Sum(TokenValues(capture[..k]))
    {
      var v := SignedValue(capture[k]);
      var i := if InI32(v) then v else 0;
      assert capture[..k + 1][..k] == capture[..k];
      runningTotal := runningTotal + i;
    }
    assert capture[..|capture|] == capture;
    return Ok(runningTotal);
  }

  /** When every token fits, the total is the one the second parser
      computes. */
  lemma StaticAgreesWithContext(notation: string)
    requires forall i :: 0 <= i < |SignedTokens(notation, 0)| ==> InI32(SignedValue(SignedTokens(notation, 0)[i]))
    ensures StaticElements(notation) == DiceContexts.ParseStaticElements(notation)
  {
    var ts := SignedTokens(notation, 0);
    assert TokenValues(ts) == SignedValues(ts);
  }

  /** The contribution of each written modifier, in order. */
  function FitAll(vs: seq<int>): (fs: seq<int>)
    ensures |fs| == |vs|
    ensures forall i :: 0 <= i < |vs| ==> fs[i] == Fit(vs[i])
  {
    if |vs| == 0 then [] else FitAll(vs[..|vs| - 1]) + [Fit(vs[|vs| - 1])]
  }

  /** Written modifiers read back as the sum of those that fit 32 bits. */
  lemma StaticRoundTrip(vs: seq<int>)
    ensures StaticElements(ModifiersText(vs)) == Sum(FitAll(vs))
  {
    ModifiersTextTokens(vs);
    assert TokenValues(SignedTokens(ModifiersText(vs), 0)) == FitAll(vs);
  }

  /** A sign-free prefix followed by written modifiers. */
  lemma StaticText(x: string, vs: seq<int>, s: string)
    requires SignFree(x) && s == x + ModifiersText(vs)
    ensures StaticElements(s) == Sum(FitAll(vs))
  {
    SignFreePrefix(x, ModifiersText(vs), 0);
    StaticRoundTrip(vs);
  }
}

/** The documented cases of the third parser. */
module DamageElementExamples {
  import opened Combat
  import opened Notation
  import opened DamageElements
  import RollCollections

  /** A notation whose only match is `m1`. */
  lemma OneSpanList(s: string, m1: DieSpan)
    requires FirstPlainDie(s, 0) == Some(m1) && FirstPlainDie(s, m1.stop).None?
    ensures PlainDieSpans(s, 0) == [m1]
  {
    assert PlainDieSpans(s, m1.stop) == [];
  }

  /** A notation whose matches are exactly `m1` then `m2`. */
  lemma TwoSpanList(s: string, m1: DieSpan, m2: DieSpan)
    requires FirstPlainDie(s, 0) == Some(m1) && FirstPlainDie(s, m1.stop) == Some(m2)
    requires FirstPlainDie(s, m2.stop).None?
    ensures PlainDieSpans(s, 0) == [m1, m2]
  {
    assert PlainDieSpans(s, m2.stop) == [];
    assert PlainDieSpans(s, m1.stop) == [m2];
  }

  /** The dice of a notation whose matches `ms` each read as a die. */
  lemma ReadDice(s: string, ms: seq<DieSpan>, ds: seq<Die>)
    requires PlainDieSpans(s, 0) == ms && |ds| == |ms|
    requires forall i :: 0 <= i < |ms| ==> SpanDie(s, ms[i]) == Ok(ds[i])
    ensures DieElements(s) == Ok(ds)
  {
    AllRead(s, ms, ds);
  }

  lemma SingleFirst()
    ensures ValidSpan("1d8+5", DieSpan(0, 1, 3)) && FirstPlainDie("1d8+5", 0) == Some(DieSpan(0, 1, 3))
    ensures SpanCount("1d8+5", DieSpan(0, 1, 3)) == 1 && SpanSize("1d8+5", DieSpan(0, 1, 3)) == 8
  {
    assert "1d8+5" == "1" + "d" + "8" + "+5";
    RollCollections.CoreRead("1d8+5", "1", "8", "+5");
  }

  lemma SingleRest()
    ensures FirstPlainDie("1d8+5", 3).None?
  {
  }

  lemma DieElementsSingle()
    ensures DieElements("1d8+5") == Ok([Die(1, 1, 8)])
  {
    SingleFirst();
    SingleRest();
    OneSpanList("1d8+5", DieSpan(0, 1, 3));
    ReadDice("1d8+5", [DieSpan(0, 1, 3)], [Die(1, 1, 8)]);
  }

  lemma MultipleFirst()
    ensures ValidSpan("1d6,1d8+5", DieSpan(0, 1, 3)) && FirstPlainDie("1d6,1d8+5", 0) == Some(DieSpan(0, 1, 3))
    ensures SpanCount("1d6,1d8+5", DieSpan(0, 1, 3)) == 1 && SpanSize("1d6,1d8+5", DieSpan(0, 1, 3)) == 6
  {
    assert "1d6,1d8+5" == "1" + "d" + "6" + ",1d8+5";
    RollCollections.CoreRead("1d6,1d8+5", "1", "6", ",1d8+5");
  }

  lemma MultipleSecondAt()
    ensures PlainDieAt("1d6,1d8+5", 3).None?
    ensures PlainDieAt("1d6,1d8+5", 4) == Some(DieSpan(4, 5, 7))
  {
  }

  lemma MultipleSecond()
    ensures ValidSpan("1d6,1d8+5", DieSpan(4, 5, 7)) && FirstPlainDie("1d6,1d8+5", 3) == Some(DieSpan(4, 5, 7))
    ensures SpanCount("1d6,1d8+5", DieSpan(4, 5, 7)) == 1 && SpanSize("1d6,1d8+5", DieSpan(4, 5, 7)) == 8
  {
    MultipleSecondAt();
    assert "1d6,1d8+5"[4..5] == "1";
    assert "1d6,1d8+5"[6..7] == "8";
  }

  lemma MultipleRest()
    ensures FirstPlainDie("1d6,1d8+5", 7).None?
  {
  }

  lemma DieElementsMultiple()
    ensures DieElements("1d6,1d8+5") == Ok([Die(1, 1, 6), Die(1, 1, 8)])
  {
    MultipleFirst();
    MultipleSecond();
    MultipleRest();
    TwoSpanList("1d6,1d8+5", DieSpan(0, 1, 3), DieSpan(4, 5, 7));
    ReadDice("1d6,1d8+5", [DieSpan(0, 1, 3), DieSpan(4, 5, 7)], [Die(1, 1, 6), Die(1, 1, 8)]);
  }

  lemma StaticPositive()
    ensures StaticElements("1d8+5") == 5
  {
    StaticText("1d8", [5], "1d8+5");
    assert FitAll([5]) == [5];
  }

  lemma StaticNegative()
    ensures StaticElements("1d8-5") == -5
  {
    StaticText("1d8", [-5], "1d8-5");
    assert FitAll([-5]) == [-5];
  }

  lemma StaticMixed()
    ensures StaticElements("1d8+5-3") == 2
  {
    assert ModifiersText([5, -3]) == "+5-3";
    StaticText("1d8", [5, -3], "1d8+5-3");
    assert FitAll([5, -3]) == [5, -3];
    assert [5, -3][..1] == [5];
  }

  /** A token beyond 32 bits adds nothing, wherever the others are. */
  lemma StaticOverflowIgnored(v: int, vs: seq<int>)
    requires !InI32(v)
    ensures StaticElements(ModifiersText([v] + vs)) == Sum(FitAll(vs))
  {
    StaticRoundTrip([v] + vs);
    FitAllCons(v, vs);
    SumZeroFront(FitAll(vs));
  }

  lemma FitAllCons(v: int, vs: seq<int>)
    ensures FitAll([v] + vs) == [Fit(v)] + FitAll(vs)
  {
    var a := FitAll([v] + vs);
    var b := [Fit(v)] + FitAll(vs);
    forall i | 0 <= i < |a|
      ensures a[i] == b[i]
    {
      if i > 0 {
        assert ([v] + vs)[i] == vs[i - 1];
      }
    }
  }

  lemma SumZeroFront(xs: seq<int>)
    ensures Sum([0] + xs) == Sum(xs)
  {
    SumAppend([0], xs);
    assert [0][..0] == [];
  }

  /** Text with no dice and no signs gives no dice and a total of 0. */
  lemma EmptyExamples()
    ensures DieElements("abc") == Ok([])
    ensures StaticElements("abc") == 0
  {
    assert FirstPlainDie("abc", 0).None?;
    StaticText("abc", [], "abc");
  }
}
