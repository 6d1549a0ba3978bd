/** The earliest weapon description: a number of dice, an exclusive upper
    bound on each die's result, and a flat damage modifier, read from
    `NdS+M` by splitting on `d` and `+`.

    The die results of a damage roll are inputs. */
module Weapons {
  import opened Combat
  import opened Notation

  /** Smallest result of a weapon die. */
  const ROLL_MIN: int := 1

  /** `maxRoll` is one more than the die size: results are drawn from
      `ROLL_MIN` up to, but excluding, `maxRoll`. */
  datatype Weapon = Weapon(numberDie: int, maxRoll: int, damageModifier: int)

  /** A weapon of `numberDie` dice of size `dieSize` plus `damageModifier`. */
  function New(numberDie: int, dieSize: int, damageModifier: int): (w: Weapon)
    ensures w.numberDie == numberDie && w.damageModifier == damageModifier
    ensures w.maxRoll - 1 == dieSize
  {
    Weapon(numberDie, dieSize + 1, damageModifier)
  }

  /** The weapon of no dice of size 0 and no modifier. */
  function CreateEmpty(): (w: Weapon)
    ensures w.numberDie == 0 && w.maxRoll == 1 && w.damageModifier == 0
  {
    New(0, 0, 0)
  }

  /** A signed 32-bit integer read from the whole token: an optional `+` or
      `-` followed by at least one digit, with the value in range. */
  function ParseI32(t: string): (r: Option<int>)
    ensures r.Some? ==> InI32(r.value)
    ensures r.Some? ==> IsSignedToken(t) || (|t| >= 1 && AllDigits(t))
    ensures IsSignedToken(t) && InI32(SignedValue(t)) ==> r == Some(SignedValue(t))
    ensures |t| >= 1 && AllDigits(t) && InI32(DigitsValue(t)) ==> r == Some(DigitsValue(t))
  {
    if |t| >= 2 && IsSign(t[0]) && AllDigits(t[1..]) then
      var magnitude: int := DigitsValue(t[1..]);
      var v := if t[0] == '-' then -magnitude else magnitude;
      if InI32(v) then Some(v) else None
    else if |t| >= 1 && AllDigits(t) && InI32(DigitsValue(t)) then Some(DigitsValue(t))
    else None
  }

  /** Decimal rendering of an integer, with `-` only when negative. */
  function IntStr(v: int): (t: string)
    ensures |t| >= 1 && NumberText(t)
  {
    if v < 0 then "-" + NatStr(-v) else NatStr(v)
  }

  /** Reading back a rendered integer that fits 32 bits gives it back. */
  lemma ParseIntStr(v: int)
    requires InI32(v)
    ensures ParseI32(IntStr(v)) == Some(v)
  {
    if v < 0 {
      assert IntStr(v)[1..] == NatStr(-v);
    }
  }

  /** The error of every failed read: it quotes the whole input. */
  function ParseError(notation: string): string
  {
    "Unable to parse input string '" + notation + "'!"
  }

  const WeaponSeps: set<char> := {'d', '+'}

  /** Reads `NdS+M`: the text must split on `d` and `+` into exactly three
      pieces, each a 32-bit integer; any failure is the same error. */
  function FromNotationString(notation: string): (r: Result<Weapon, string>)
    ensures r.Ok? <==>
              var tokens := Split(notation, WeaponSeps);
              |tokens| == 3 && ParseI32(tokens[0]).Some? && ParseI32(tokens[1]).Some? && ParseI32(tokens[2]).Some?
    ensures r.Ok? ==>
              var tokens := Split(notation, WeaponSeps);
              r.value == New(ParseI32(tokens[0]).value, ParseI32(tokens[1]).value, ParseI32(tokens[2]).value)
    ensures r.Err? ==> r.error == ParseError(notation)
  {
    var tokens := Split(notation, WeaponSeps);
    if |tokens| != 3 then Err(ParseError(notation))
    else
      match (ParseI32(tokens[0]), ParseI32(tokens[1]), ParseI32(tokens[2]))
      case (Some(numberDie), Some(dieSize), Some(damageModifier)) => Ok(New(numberDie, dieSize, damageModifier))
      case _ => Err(ParseError(notation))
  }

  /** Splitting on a set of separators peels off a leading piece free of
      them. */
  lemma {:induction false} SplitPieceOn(x: string, c: char, y: string, seps: set<char>)
    requires c in seps
    requires forall k :: 0 <= k < |x| ==> x[k] !in seps
    ensures Split(x + [c] + y, seps) == [x] + Split(y, seps)
    ensures Split(x, seps) == [x]
    decreases |x|
  {
    if |x| == 0 {
      assert x + [c] + y == [c] + y;
      assert ([c] + y)[1..] == y;
    } else {
      SplitPieceOn(x[1..], c, y, seps);
      assert (x + [c] + y)[1..] == x[1..] + [c] + y;
      assert [x[0]] + x[1..] == x;
    }
  }

  /** A written weapon reads back as itself. */
  lemma FromNotationRoundTrip(numberDie: nat, dieSize: nat, damageModifier: int)
    requires InI32(numberDie) && InI32(dieSize) && InI32(damageModifier)
    ensures FromNotationString(NatStr(numberDie) + "d" + NatStr(dieSize) + "+" + IntStr(damageModifier))
            == Ok(New(numberDie, dieSize, damageModifier))
  {
    ThreePieces(NatStr(numberDie), NatStr(dieSize), IntStr(damageModifier));
    ParseIntStr(numberDie);
    ParseIntStr(dieSize);
    ParseIntStr(damageModifier);
  }

  /** Text of digits and minus signs, as integers are written. */
  predicate NumberText(x: string)
  {
    forall k :: 0 <= k < |x| ==> IsDigit(x[k]) || x[k] == '-'
  }

  lemma NumberTextFree(x: string)
    requires NumberText(x)
    ensures forall k :: 0 <= k < |x| ==> x[k] !in WeaponSeps
  {
  }

  /** Three pieces of digits and minus signs joined by `d` and `+` split back
      into themselves. */
  lemma ThreePieces(a: string, b: string, m: string)
    requires NumberText(a) && NumberText(b) && NumberText(m)
    ensures Split(a + "d" + b + "+" + m, WeaponSeps) == [a, b, m]
  {
    TwoPieces(b, m);
    NumberTextFree(a);
    assert a + "d" + b + "+" + m == a + ['d'] + (b + "+" + m);
    SplitPieceOn(a, 'd', b + "+" + m, WeaponSeps);
  }

  lemma TwoPieces(b: string, m: string)
    requires NumberText(b) && NumberText(m)
    ensures Split(b + "+" + m, WeaponSeps) == [b, m]
  {
    NumberTextFree(m);
    SplitPieceOn(m, 'd', "", WeaponSeps);
    NumberTextFree(b);
    assert b + "+" + m == b + ['+'] + m;
    SplitPieceOn(b, '+', m, WeaponSeps);
  }

  /** Number of dice actually rolled: none when `numberDie` is not
      positive. */
  function DiceRolled(w: Weapon): nat
  {
    if w.numberDie > 0 then w.numberDie else 0
  }

  /** Rolls the weapon's dice and adds the modifier. Each die result lies in
      `ROLL_MIN .. maxRoll - 1`. */
  method RollDamage(w: Weapon, draws: seq<int>) returns (damage: int)
    requires |draws| == DiceRolled(w)
    requires forall i :: 0 <= i < |draws| ==> ROLL_MIN <= draws[i] < w.maxRoll
    ensures damage == Sum(draws) + w.damageModifier
    ensures DiceRolled(w) * ROLL_MIN + w.damageModifier <= damage <= DiceRolled(w) * (w.maxRoll - 1) + w.damageModifier
    ensures w.numberDie <= 0 ==> damage == w.damageModifier
  {
    var dmgRoll := 0;
    var i := 0;
    while i < w.numberDie
      invariant 0 <= i <= DiceRolled(w)
      invariant dmgRoll == Sum(draws[..i])
    {
      assert draws[..i + 1][..i] == draws[..i];
      dmgRoll := dmgRoll + draws[i];
      i := i + 1;
    }
    assert draws[..i] == draws;
    SumBounds(draws, ROLL_MIN, w.maxRoll - 1);
    damage := dmgRoll + w.damageModifier;
  }

  /** A sum of values between `lo` and `hi` lies between `|s| * lo` and
      `|s| * hi`. */
  lemma {:induction false} SumBounds(s: seq<int>, lo: int, hi: int)
    requires forall i :: 0 <= i < |s| ==> lo <= s[i] <= hi
    ensures |s| * lo <= Sum(s) <= |s| * hi
  {
    if |s| > 0 {
      var n := |s| - 1;
      SumBounds(s[..n], lo, hi);
      assert Sum(s) == Sum(s[..n]) + s[n];
      MulSucc(n, lo);
      MulSucc(n, hi);
    }
  }

  lemma MulSucc(n: nat, x: int)
    ensures (n + 1) * x == n * x + x
  {
  }
}

/** The documented cases of the weapon. */
module WeaponExamples {
  import opened Combat
  import opened Notation
  import opened Weapons

  lemma CreateEmptyExample()
    ensures CreateEmpty() == Weapon(0, 1, 0)
  {
  }

  lemma FromNotationExample()
    ensures FromNotationString("1d6+3") == Ok(Weapon(1, 7, 3))
  {
    FromNotationRoundTrip(1, 6, 3);
    assert NatStr(1) + "d" + NatStr(6) + "+" + IntStr(3) == "1d6+3";
  }

  /** Without a `d`, or without a `+`, the text splits into two pieces. */
  lemma FromNotationFailures()
    ensures FromNotationString("16+3").Err?
    ensures FromNotationString("1d63").Err?
  {
    SplitLength("16+3", WeaponSeps);
    SplitLength("1d63", WeaponSeps);
  }

  /** One d8 with no modifier deals 1 to 8. */
  method RollDamageExample(draw: int) returns (damage: int)
    requires 1 <= draw <= 8
    ensures 1 <= damage <= 8
  {
    damage := RollDamage(New(1, 8, 0), [draw]);
  }
}
