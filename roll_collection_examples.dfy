/** The roll collection's documented cases, derived from the general
    lemmas. Die results are the values each die reports. */
module RollCollectionExamples {
  import opened Combat
  import opened Notation
  import opened StaticModifiers
  import opened RollCollections

  const T1 := DiceToken(1, 4, NoGroup, None)
  const T2 := DiceToken(2, 6, GroupD, None)
  const T3 := DiceToken(1, 6, NoGroup, Some(12))

  lemma FragmentTexts()
    ensures DiceNotation(T1) + ModifiersText([]) == "1d4"
    ensures DiceNotation(T2) + ModifiersText([7]) == "2d6D+7"
    ensures DiceNotation(T3) + ModifiersText([]) == "1d6~12"
  {
    assert NatStr(12) == "12";
  }

  lemma ExampleJoin()
    ensures Free("1d4", ',') && Free("2d6D+7", ',') && Free("1d6~12", ',')
    ensures Join(["1d4", "2d6D+7", "1d6~12"], ',') == "1d4,2d6D+7,1d6~12"
  {
    var fs := ["1d4", "2d6D+7", "1d6~12"];
    assert fs[1..][1..] == ["1d6~12"];
    assert fs[1..] == ["2d6D+7", "1d6~12"];
  }

  lemma FirstFragmentDice()
    ensures FragmentDice("1d4") == [Die(1, 4, Standard, None)]
  {
    FragmentTexts();
    NotationDiceRoundTrip(T1, []);
    NotationCommaFree(T1, []);
    SingleFragment("1d4");
  }

  lemma SecondFragmentDice()
    ensures FragmentDice("2d6D+7") == [Die(1, 6, Disadvantage, None), Die(1, 6, Disadvantage, None)]
  {
    FragmentTexts();
    NotationDiceRoundTrip(T2, [7]);
    NotationCommaFree(T2, [7]);
    SingleFragment("2d6D+7");
  }

  lemma ThirdFragmentDice()
    ensures FragmentDice("1d6~12") == [Die(1, 6, Fatal, Some(12))]
  {
    FragmentTexts();
    NotationDiceRoundTrip(T3, []);
    NotationCommaFree(T3, []);
    SingleFragment("1d6~12");
  }

  /** "1d4,2d6D+7,1d6~12" under 5e yields a d4, two d6 with disadvantage and
      a fatal d6 with alternate maximum 12. */
  lemma ParseUserInputDiceExample()
    ensures NotationDice("1d4,2d6D+7,1d6~12")
            == [Die(1, 4, Standard, None), Die(1, 6, Disadvantage, None),
                Die(1, 6, Disadvantage, None), Die(1, 6, Fatal, Some(12))]
  {
    ExampleFragments();
    ExampleFragmentDice();
  }

  lemma ExampleFragmentDice()
    ensures FragmentDice("1d4") + FragmentDice("2d6D+7") + FragmentDice("1d6~12")
            == [Die(1, 4, Standard, None), Die(1, 6, Disadvantage, None),
                Die(1, 6, Disadvantage, None), Die(1, 6, Fatal, Some(12))]
  {
    FirstFragmentDice();
    SecondFragmentDice();
    ThirdFragmentDice();
    ConcatThree(FragmentDice("1d4"), FragmentDice("2d6D+7"), FragmentDice("1d6~12"),
                Die(1, 4, Standard, None), Die(1, 6, Disadvantage, None), Die(1, 6, Fatal, Some(12)));
  }

  lemma ConcatThree(a: seq<Die>, b: seq<Die>, c: seq<Die>, x: Die, y: Die, z: Die)
    requires a == [x] && b == [y, y] && c == [z]
    ensures a + b + c == [x, y, y, z]
  {
  }

  lemma ExampleFragments()
    ensures NotationDice("1d4,2d6D+7,1d6~12") == FragmentDice("1d4") + FragmentDice("2d6D+7") + FragmentDice("1d6~12")
  {
    ExampleJoin();
    FragmentsNotation(["1d4", "2d6D+7", "1d6~12"]);
    ThreeFragments("1d4", "2d6D+7", "1d6~12");
  }

  lemma ThreeFragments(a: string, b: string, c: string)
    ensures FragmentsDice([a, b, c]) == FragmentDice(a) + FragmentDice(b) + FragmentDice(c)
  {
    assert [a, b, c][..2] == [a, b] && [a, b][..1] == [a] && [a][..0] == [];
    assert FragmentsDice([a]) == FragmentDice(a);
    assert FragmentsDice([a, b]) == FragmentsDice([a]) + FragmentDice(b);
  }

  /** A fragment written from a token, followed by nothing or a signed
      modifier, contributes `count` copies of the token's die. */
  lemma TokenFragment(t: DiceToken, rest: string)
    requires |rest| == 0 || IsSign(rest[0])
    ensures FragmentDice(DiceNotation(t) + rest) == Repeat(TokenDie(t), t.count)
  {
    DiceNotationRoundTrip(t, rest);
  }

  /** The documented fragments, written from their tokens. */
  lemma PlainFragmentTexts()
    ensures DiceNotation(DiceToken(1, 8, NoGroup, None)) + "+5" == "1d8+5"
    ensures DiceNotation(DiceToken(2, 8, NoGroup, None)) + "+5" == "2d8+5"
    ensures DiceNotation(DiceToken(1, 20, NoGroup, None)) + "" == "1d20"
    ensures DiceNotation(DiceToken(1, 100, NoGroup, None)) + "+5" == "1d100+5"
  {
    assert NatStr(20) == "20";
    assert NatStr(100) == "100";
  }

  lemma GroupFragmentTexts()
    ensures DiceNotation(DiceToken(1, 8, GroupA, None)) + "+5" == "1d8A+5"
    ensures DiceNotation(DiceToken(1, 8, GroupAA, None)) + "+5" == "1d8AA+5"
    ensures DiceNotation(DiceToken(1, 8, GroupD, None)) + "+5" == "1d8D+5"
    ensures DiceNotation(DiceToken(1, 6, NoGroup, Some(10))) + "" == "1d6~10"
    ensures DiceNotation(DiceToken(1, 6, GroupAA, Some(10))) + "" == "1d6AA~10"
  {
    assert NatStr(10) == "10";
  }

  /** One d8 with a modifier. */
  lemma SingleFragmentExample()
    ensures FragmentDice("1d8+5") == [Die(1, 8, Standard, None)]
  {
    PlainFragmentTexts();
    TokenFragment(DiceToken(1, 8, NoGroup, None), "+5");
  }

  /** Two d8: the die is repeated `count` times. */
  lemma MultipleFragmentExample()
    ensures FragmentDice("2d8+5") == [Die(1, 8, Standard, None), Die(1, 8, Standard, None)]
  {
    PlainFragmentTexts();
    TokenFragment(DiceToken(2, 8, NoGroup, None), "+5");
  }

  /** Multi-digit sizes are read whole. */
  lemma MultidigitFragmentExample()
    ensures FragmentDice("1d20") == [Die(1, 20, Standard, None)]
    ensures FragmentDice("1d100+5") == [Die(1, 100, Standard, None)]
  {
    PlainFragmentTexts();
    TokenFragment(DiceToken(1, 20, NoGroup, None), "");
    TokenFragment(DiceToken(1, 100, NoGroup, None), "+5");
  }

  /** `A`, `AA` and `D` after the size select the reroll behaviour. */
  lemma RerollFragmentExamples()
    ensures FragmentDice("1d8A+5") == [Die(1, 8, Advantage, None)]
    ensures FragmentDice("1d8AA+5") == [Die(1, 8, DoubleAdvantage, None)]
    ensures FragmentDice("1d8D+5") == [Die(1, 8, Disadvantage, None)]
  {
    GroupFragmentTexts();
    TokenFragment(DiceToken(1, 8, GroupA, None), "+5");
    TokenFragment(DiceToken(1, 8, GroupAA, None), "+5");
    TokenFragment(DiceToken(1, 8, GroupD, None), "+5");
  }

  /** A `~F` suffix makes the die Fatal, and wins over a reroll group. */
  lemma FatalFragmentExamples()
    ensures FragmentDice("1d6~10") == [Die(1, 6, Fatal, Some(10))]
    ensures FragmentDice("1d6AA~10") == [Die(1, 6, Fatal, Some(10))]
  {
    GroupFragmentTexts();
    TokenFragment(DiceToken(1, 6, NoGroup, Some(10)), "");
    TokenFragment(DiceToken(1, 6, GroupAA, Some(10)), "");
  }

  /** An unknown letter after the size leaves the die Standard. */
  lemma InvalidGroupFragmentExample()
    ensures FragmentDice("1d8z+5") == [Die(1, 8, Standard, None)]
  {
    var s := "1d8z+5";
    assert s == "1" + "d" + "8" + "z+5";
    CoreRead(s, "1", "8", "z+5");
    assert DigitsValue("1") == 1 && DigitsValue("8") == 8;
    assert RerollAt(s, 3) == NoGroup && FatalAt(s, 3) == None;
  }

  /** A fragment without `NdS` contributes no dice. */
  lemma NoDieFragmentExample()
    ensures FragmentDice("+5") == []
  {
    assert PlainDieAt("+5", 0).None? && PlainDieAt("+5", 1).None?;
    assert FirstPlainDie("+5", 2).None?;
    assert FirstPlainDie("+5", 1).None?;
  }

  /** ... and a single +7 modifier that applies on a hit. */
  lemma ParseUserInputModifiersExample()
    ensures NotationModifiers("1d4,2d6D+7,1d6~12", DND5e) == [StaticModifier(7, OnHit)]
  {
    ModifierPieces();
    TokenBetween("1d4,2d6D", "+7", ",1d6~12");
  }

  lemma ModifierPieces()
    ensures "1d4,2d6D+7,1d6~12" == "1d4,2d6D" + ("+7" + ",1d6~12")
    ensures SignFree("1d4,2d6D") && SignFree(",1d6~12")
    ensures IsSignedToken("+7") && SignedValue("+7") == 7
  {
    assert "+7"[1..] == "7";
  }

  /** A single signed token between sign-free texts is the only one found. */
  lemma TokenBetween(x: string, y: string, z: string)
    requires SignFree(x) && SignFree(z) && IsSignedToken(y)
    requires |z| == 0 || !IsDigit(z[0])
    ensures SignedTokens(x + (y + z), 0) == [y]
  {
    var s := y + z;
    SignFreePrefix(x, s, 0);
    forall k | 1 <= k < |y|
      ensures IsDigit(s[k])
    {
      assert s[k] == y[1..][k - 1];
    }
    assert |y| == |s| || s[|y|] == z[0];
    RunEndIs(s, 1, |y|);
    SignedTokensShift(y, z, |y|);
    SignFreePrefix(z, "", 0);
    assert z + "" == z;
    assert s[0..|y|] == y;
  }

  function Single(rollMin: int, rollMax: int, mods: seq<StaticModifier>, ruleMode: Ruleset): RollCollection
  {
    RollCollection([Die(rollMin, rollMax, Standard, None)], mods, ruleMode)
  }

  /** The documented to-hit cases: `roll` is whatever the single die shows
      within its bounds. */
  lemma HitRuleExamples(roll: int)
    ensures roll == 20 ==> DndRule(Single(20, 20, [], DND5e), 20, [roll]) == CriticalHit
    ensures 1 <= roll <= 19 ==> DndRule(Single(1, 19, [StaticModifier(10, OnHit)], DND5e), 1, [roll]) == Hit
    ensures 1 <= roll <= 2 ==> DndRule(Single(1, 2, [StaticModifier(10, OnHit)], DND5e), 20, [roll]) == Miss
    ensures 1 <= roll <= 10 ==>
              PathfinderRule(Single(1, 10, [StaticModifier(10, OnHit)], PF2e), 1, [roll]) == CriticalHit
    ensures roll == 20 ==> PathfinderRule(Single(20, 20, [], PF2e), 19, [roll]) == CriticalHit
    ensures roll == 20 ==> PathfinderRule(Single(20, 20, [], PF2e), 21, [roll]) == Hit
    ensures 1 <= roll <= 5 ==> PathfinderRule(Single(1, 5, [StaticModifier(5, OnHit)], PF2e), 5, [roll]) == Hit
    ensures 1 <= roll <= 10 ==> PathfinderRule(Single(1, 10, [], PF2e), 15, [roll]) == Miss
  {
    OneDie(Die(20, 20, Standard, None), roll);
    OneDie(Die(1, 19, Standard, None), roll);
    OneDie(Die(1, 2, Standard, None), roll);
    OneDie(Die(1, 10, Standard, None), roll);
    OneDie(Die(1, 5, Standard, None), roll);
    OneModifier(StaticModifier(10, OnHit), None);
    OneModifier(StaticModifier(5, OnHit), None);
  }

  /** The documented cases routed by rule set: a natural 20 under 5e is a
      critical hit whatever the armour class, and a PF2e roll of 14 or 15
      clears armour class 2 by ten. */
  lemma ArmourClassExamples(roll: int)
    ensures roll == 20 ==> AcOutcome(Single(20, 20, [], DND5e), 100, [roll]) == CriticalHit
    ensures 14 <= roll <= 15 ==> AcOutcome(Single(14, 15, [], PF2e), 2, [roll]) == CriticalHit
  {
    OneDie(Die(20, 20, Standard, None), roll);
    OneDie(Die(14, 15, Standard, None), roll);
  }

  lemma OneDie(d: Die, roll: int)
    ensures Sum([roll]) == roll
    ensures AnyNat20([d], [roll]) <==> Nat20(d, roll)
    ensures NaturalAdjustment([d], [roll]) == (if Nat20(d, roll) then 1 else if Nat1(d, roll) then -1 else 0)
  {
    assert [roll][..0] == [] && [d][..0] == [];
  }

  lemma OneModifier(m: StaticModifier, hit: Option<HitResult>)
    ensures ModifierTotal([m], hit) == EvaluateResult(m, hit)
  {
    assert [m][..0] == [];
  }

  lemma TwoModifiers(m1: StaticModifier, m2: StaticModifier, hit: Option<HitResult>)
    ensures ModifierTotal([m1, m2], hit) == EvaluateResult(m1, hit) + EvaluateResult(m2, hit)
  {
    assert [m1, m2][..1] == [m1];
    OneModifier(m1, hit);
  }

  /** The documented damage cases: two dice reporting 2 and 3 on a hit, and
      4 and 6 on a critical hit, where the dice double their results. */
  lemma DamageExamples()
    ensures RollDamageResult(RollCollection([], [], DND5e), Miss, []) == 0
    ensures RollDamageResult(RollCollection([Die(2, 2, Standard, None), Die(3, 3, Standard, None)],
                                            [StaticModifier(1, OnHit), StaticModifier(2, OnHit)], DND5e),
                             Hit, [2, 3]) == 8
    ensures RollDamageResult(RollCollection([Die(2, 2, Standard, None), Die(3, 3, Standard, None)],
                                            [StaticModifier(1, OnHit), StaticModifier(2, OnHit)], DND5e),
                             CriticalHit, [4, 6]) == 13
    ensures RollDamageResult(RollCollection([Die(2, 2, Standard, None), Die(3, 3, Standard, None)],
                                            [StaticModifier(1, CanCritical), StaticModifier(2, CanCritical)], PF2e),
                             CriticalHit, [4, 6]) == 16
  {
    assert [2, 3][..1] == [2] && [4, 6][..1] == [4] && [2][..0] == [] && [4][..0] == [];
    TwoModifiers(StaticModifier(1, OnHit), StaticModifier(2, OnHit), Some(Hit));
    TwoModifiers(StaticModifier(1, OnHit), StaticModifier(2, OnHit), Some(CriticalHit));
    TwoModifiers(StaticModifier(1, CanCritical), StaticModifier(2, CanCritical), Some(CriticalHit));
  }
}
