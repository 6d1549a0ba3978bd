/** The current engine's roll collection: an ordered bundle of dice and
    static modifiers under one rule set, the parser that builds it from dice
    notation, the two hit-resolution rules and the damage sum.

    Random draws are inputs here: a to-hit evaluation receives the result
    each die showed (`rolls[i]` for `dice[i]`), and a damage evaluation
    receives each die's damage result under the hit outcome. How a die turns
    raw draws into that result (advantage, fatal, ...) belongs to the dice
    module, which is not part of this model. */
module RollCollections {
  import opened Combat
  import opened Notation
  import opened StaticModifiers

  /** Roll minimum of a die built by the parser. The dice builder sets only
      the maximum and the behaviour, so the minimum is the builder's default,
      taken to be 1. */
  const DEFAULT_ROLL_MIN: int := 1

  /** A die record: its bounds, its behaviour and, for Fatal dice, the
      alternate maximum used on a critical hit. */
  datatype Die = Die(rollMin: int, rollMax: int, behaviour: RollBehaviour, altMax: Option<int>)

  datatype RollCollection = RollCollection(dice: seq<Die>, modifiers: seq<StaticModifier>, ruleMode: Ruleset)

  /** Builds a collection holding exactly the dice, modifiers and rule set
      given. */
  function New(dice: seq<Die>, modifiers: seq<StaticModifier>, ruleMode: Ruleset): (rc: RollCollection)
    ensures rc.dice == dice && rc.modifiers == modifiers && rc.ruleMode == ruleMode
  {
    RollCollection(dice, modifiers, ruleMode)
  }

  // ---------------------------------------------------------------------
  // Dice notation: `(\d+)d(\d+)(AA|A|D)?(?:~(\d+))?`, first match per fragment

  /** The optional `AA|A|D` group of the dice pattern. */
  datatype RerollGroup = NoGroup | GroupAA | GroupA | GroupD

  function GroupText(g: RerollGroup): string
  {
    match g
    case NoGroup => ""
    case GroupAA => "AA"
    case GroupA => "A"
    case GroupD => "D"
  }

  /** What the dice pattern captured: count, size, reroll group and the
      fatal size, if any. */
  datatype DiceToken = DiceToken(count: nat, size: nat, reroll: RerollGroup, fatal: Option<nat>)

  /** The optional `AA|A|D` group at `k`; the alternation prefers `AA`. */
  function RerollAt(s: string, k: nat): (g: RerollGroup)
    requires k <= |s|
    ensures k + |GroupText(g)| <= |s|
  {
    if k + 1 < |s| && s[k] == 'A' && s[k + 1] == 'A' then GroupAA
    else if k < |s| && s[k] == 'A' then GroupA
    else if k < |s| && s[k] == 'D' then GroupD
    else NoGroup
  }

  /** The optional `~(\d+)` group at `m`. */
  function FatalAt(s: string, m: nat): Option<nat>
    requires m <= |s|
  {
    if m < |s| && s[m] == '~' && RunEnd(s, m + 1) > m + 1 then Some(DigitsValue(s[m + 1..RunEnd(s, m + 1)]))
    else None
  }

  /** The captures of the dice pattern whose `\d+d\d+` core is `span`. */
  function TokenAt(s: string, span: DieSpan): DiceToken
    requires ValidSpan(s, span)
  {
    var g := RerollAt(s, span.stop);
    DiceToken(SpanCount(s, span), SpanSize(s, span), g, FatalAt(s, span.stop + |GroupText(g)|))
  }

  /** The first match of the dice pattern in `s`. The optional groups never
      make a match fail, so it starts where the first `\d+d\d+` starts. */
  function FirstDiceToken(s: string): Option<DiceToken>
  {
    match FirstPlainDie(s, 0)
    case None => None
    case Some(span) => Some(TokenAt(s, span))
  }

  /** The die a token describes: Fatal with the alternate maximum when a
      `~F` group holds a 32-bit value (the reroll group is then ignored);
      otherwise the reroll behaviour named by `AA`, `A` or `D`, and Standard
      for anything else. A fatal group too large for 32 bits fails to parse
      and counts as absent. */
  function TokenDie(t: DiceToken): (d: Die)
    ensures d.rollMin == DEFAULT_ROLL_MIN && d.rollMax == t.size
    ensures d.behaviour == Fatal <==> t.fatal.Some? && t.fatal.value <= I32_MAX
    ensures d.behaviour == Fatal ==> d.altMax == Some(t.fatal.value as int)
    ensures d.behaviour != Fatal ==> d.altMax == None
    ensures d.behaviour != Fatal ==>
              && (d.behaviour == DoubleAdvantage <==> t.reroll == GroupAA)
              && (d.behaviour == Advantage <==> t.reroll == GroupA)
              && (d.behaviour == Disadvantage <==> t.reroll == GroupD)
              && (d.behaviour == Standard <==> t.reroll == NoGroup)
  {
    if t.fatal.Some? && t.fatal.value <= I32_MAX then
      Die(DEFAULT_ROLL_MIN, t.size, Fatal, Some(t.fatal.value))
    else
      var b := match t.reroll
               case GroupAA => DoubleAdvantage
               case GroupA => Advantage
               case GroupD => Disadvantage
               case NoGroup => Standard;
      Die(DEFAULT_ROLL_MIN, t.size, b, None)
  }

  /** The dice one notation fragment contributes: `count` copies of the die
      its first dice match describes, or nothing without a match. */
  function FragmentDice(fragment: string): seq<Die>
  {
    match FirstDiceToken(fragment)
    case None => []
    case Some(t) => Repeat(TokenDie(t), t.count)
  }

  /** Appends the dice of one fragment to `dice`. */
  method ParseDieElements(dice: seq<Die>, notation: string) returns (r: seq<Die>)
    ensures r == dice + FragmentDice(notation)
  {
    r := dice;
    var token := FirstDiceToken(notation);
    if token.Some? {
      var t := token.value;
      var die := TokenDie(t);
      for i := 0 to t.count
        invariant r == dice + Repeat(die, i)
      {
        r := r + [die];
      }
    }
  }

  // ---------------------------------------------------------------------
  // Static modifiers: every `[+-]\d+` of the whole string

  /** Behaviour given to a bare `+N`/`-N` modifier under each rule set. */
  function DefaultBehaviour(ruleMode: Ruleset): ModifierBehaviour
  {
    match ruleMode
    case PF2e => CanCritical
    case DND5e => OnHit
  }

  /** One modifier per signed token, in order, sign kept, never merged. */
  function TokenModifiers(tokens: seq<string>, ruleMode: Ruleset): (ms: seq<StaticModifier>)
    requires forall i :: 0 <= i < |tokens| ==> IsSignedToken(tokens[i])
    ensures |ms| == |tokens|
    ensures forall i :: 0 <= i < |tokens| ==>
              ms[i] == StaticModifier(SignedValue(tokens[i]), DefaultBehaviour(ruleMode))
  {
    if |tokens| == 0 then []
    else TokenModifiers(tokens[..|tokens| - 1], ruleMode)
         + [StaticModifier(SignedValue(tokens[|tokens| - 1]), DefaultBehaviour(ruleMode))]
  }

  function NotationModifiers(notation: string, ruleMode: Ruleset): seq<StaticModifier>
  {
    TokenModifiers(SignedTokens(notation, 0), ruleMode)
  }

  /** Appends one modifier per signed token of `notation` to `mods`. */
  method ParseStaticElements(mods: seq<StaticModifier>, notation: string, ruleMode: Ruleset)
    returns (r: seq<StaticModifier>)
    ensures r == mods + NotationModifiers(notation, ruleMode)
  {
    var tokens := SignedTokens(notation, 0);
    r := mods;
    for i := 0 to |tokens|
      invariant r == mods + TokenModifiers(tokens[..i], ruleMode)
    {
      var behaviour := DefaultBehaviour(ruleMode);
      r := r + [StaticModifiers.New(SignedValue(tokens[i]), behaviour)];
      assert tokens[..i + 1][..i] == tokens[..i];
    }
    assert tokens[..|tokens|] == tokens;
  }

  // ---------------------------------------------------------------------
  // Whole notation

  /** The dice of the fragments, fragment by fragment, in order. */
  function FragmentsDice(fragments: seq<string>): seq<Die>
  {
    if |fragments| == 0 then []
    else FragmentsDice(fragments[..|fragments| - 1]) + FragmentDice(fragments[|fragments| - 1])
  }

  function NotationDice(notation: string): seq<Die>
  {
    FragmentsDice(Split(notation, {','}))
  }

  /** Parses a notation string: dice come from each comma fragment in turn,
      modifiers from the whole string. */
  method ParseUserInput(notation: string, ruleMode: Ruleset) returns (rc: RollCollection)
    ensures rc.dice == NotationDice(notation)
    ensures rc.modifiers == NotationModifiers(notation, ruleMode)
    ensures rc.ruleMode == ruleMode
  {
    var fragments := Split(notation, {','});
    var dice: seq<Die> := [];
    for i := 0 to |fragments|
      invariant dice == FragmentsDice(fragments[..i])
    {
      dice := ParseDieElements(dice, fragments[i]);
      assert fragments[..i + 1][..i] == fragments[..i];
    }
    assert fragments[..|fragments|] == fragments;
    var mods := ParseStaticElements([], notation, ruleMode);
    rc := New(dice, mods, ruleMode);
  }

  // ---------------------------------------------------------------------
  // Hit resolution

  /** A d20 showing 20, or a d20 showing 1. */
  predicate Nat20(d: Die, roll: int)
  {
    d.rollMax == 20 && roll == 20
  }

  predicate Nat1(d: Die, roll: int)
  {
    d.rollMax == 20 && roll == 1
  }

  predicate AnyNat20(dice: seq<Die>, rolls: seq<int>)
    requires |rolls| == |dice|
  {
    exists i :: 0 <= i < |dice| && Nat20(dice[i], rolls[i])
  }

  /** Flat total of a to-hit roll: every modifier's plain value plus every
      die result. */
  function RollTotal(rc: RollCollection, rolls: seq<int>): int
  {
    ModifierTotal(rc.modifiers, None) + Sum(rolls)
  }

  /** The 5e rule: any d20 showing 20 is a critical hit whatever the target;
      otherwise a hit when the total reaches the target, else a miss. */
  function DndRule(rc: RollCollection, targetAc: int, rolls: seq<int>): HitResult
    requires |rolls| == |rc.dice|
  {
    if AnyNat20(rc.dice, rolls) then CriticalHit
    else if RollTotal(rc, rolls) >= targetAc then Hit
    else Miss
  }

  /** Evaluates a to-hit roll under the 5e rule. Dice are examined in order
      and the first natural 20 ends the evaluation. */
  method EvalAcRollDnd(rc: RollCollection, targetAc: int, rolls: seq<int>) returns (r: HitResult)
    requires |rolls| == |rc.dice|
    ensures r == DndRule(rc, targetAc, rolls)
  {
    var rollTotal := ModifierTotal(rc.modifiers, None);
    for i := 0 to |rc.dice|
      invariant rollTotal == ModifierTotal(rc.modifiers, None) + Sum(rolls[..i])
      invariant forall k :: 0 <= k < i ==> !Nat20(rc.dice[k], rolls[k])
    {
      var result := rolls[i];
      if result == 20 && rc.dice[i].rollMax == 20 {
        return CriticalHit;
      }
      rollTotal := rollTotal + result;
      assert rolls[..i + 1][..i] == rolls[..i];
    }
    assert rolls[..|rc.dice|] == rolls;
    if rollTotal >= targetAc {
      r := Hit;
    } else {
      r := Miss;
    }
  }

  /** Number of d20s showing 20, minus the number of d20s showing 1. */
  function NaturalAdjustment(dice: seq<Die>, rolls: seq<int>): int
    requires |rolls| == |dice|
  {
    if |dice| == 0 then 0
    else
      var n := |dice| - 1;
      NaturalAdjustment(dice[..n], rolls[..n])
      + (if Nat20(dice[n], rolls[n]) then 1 else if Nat1(dice[n], rolls[n]) then -1 else 0)
  }

  /** Tier reached by the flat roll: 2 when it beats the target by ten or
      more, 1 when it reaches the target, else 0. */
  function Tier(difference: int): int
  {
    if difference >= 10 then 2 else if difference >= 0 then 1 else 0
  }

  /** Final classification of an adjusted tier: above 1 is a critical hit,
      exactly 1 a hit, anything below a miss. */
  function Classify(state: int): (h: HitResult)
    ensures state >= 2 ==> h == CriticalHit
    ensures state == 1 ==> h == Hit
    ensures state <= 0 ==> h == Miss
  {
    if state > 1 then CriticalHit else if state == 1 then Hit else Miss
  }

  /** The tiered (PF2e) rule. */
  function PathfinderRule(rc: RollCollection, targetAc: int, rolls: seq<int>): HitResult
    requires |rolls| == |rc.dice|
  {
    Classify(Tier(RollTotal(rc, rolls) - targetAc) + NaturalAdjustment(rc.dice, rolls))
  }

  /** Evaluates a to-hit roll under the tiered rule. */
  method EvalAcRollPathfinder(rc: RollCollection, targetAc: int, rolls: seq<int>) returns (r: HitResult)
    requires |rolls| == |rc.dice|
    ensures r == PathfinderRule(rc, targetAc, rolls)
  {
    var rollTotal := ModifierTotal(rc.modifiers, None);
    var successModifier := 0;
    for i := 0 to |rc.dice|
      invariant rollTotal == ModifierTotal(rc.modifiers, None) + Sum(rolls[..i])
      invariant successModifier == NaturalAdjustment(rc.dice[..i], rolls[..i])
    {
      var result := rolls[i];
      if result == 20 && rc.dice[i].rollMax == 20 {
        successModifier := successModifier + 1;
      } else if result == 1 && rc.dice[i].rollMax == 20 {
        successModifier := successModifier - 1;
      }
      rollTotal := rollTotal + result;
      assert rolls[..i + 1][..i] == rolls[..i];
      assert rc.dice[..i + 1][..i] == rc.dice[..i];
    }
    assert rolls[..|rc.dice|] == rolls;
    assert rc.dice[..|rc.dice|] == rc.dice;
    var rollDifference := rollTotal - targetAc;
    var successState;
    if rollDifference >= 10 {
      successState := 2;
    } else if rollDifference >= 0 {
      successState := 1;
    } else {
      successState := 0;
    }
    var state := successModifier + successState;
    if state > 1 {
      r := CriticalHit;
    } else if state == 1 {
      r := Hit;
    } else {
      r := Miss;
    }
  }

  /** Number of d20s showing 20, and of d20s showing 1. */
  function Nat20Count(dice: seq<Die>, rolls: seq<int>): nat
    requires |rolls| == |dice|
  {
    if |dice| == 0 then 0
    else
      var n := |dice| - 1;
      Nat20Count(dice[..n], rolls[..n]) + (if Nat20(dice[n], rolls[n]) then 1 else 0)
  }

  function Nat1Count(dice: seq<Die>, rolls: seq<int>): nat
    requires |rolls| == |dice|
  {
    if |dice| == 0 then 0
    else
      var n := |dice| - 1;
      Nat1Count(dice[..n], rolls[..n]) + (if Nat1(dice[n], rolls[n]) then 1 else 0)
  }

  /** The tier adjustment is the natural 20s counted up and the natural 1s
      counted down. */
  lemma {:induction false} NaturalAdjustmentCounts(dice: seq<Die>, rolls: seq<int>)
    requires |rolls| == |dice|
    ensures NaturalAdjustment(dice, rolls) == Nat20Count(dice, rolls) - Nat1Count(dice, rolls)
  {
    if |dice| > 0 {
      var n := |dice| - 1;
      NaturalAdjustmentCounts(dice[..n], rolls[..n]);
    }
  }

  /** Some d20 shows 20 exactly when the count of natural 20s is positive. */
  lemma {:induction false} AnyNat20Count(dice: seq<Die>, rolls: seq<int>)
    requires |rolls| == |dice|
    ensures AnyNat20(dice, rolls) <==> Nat20Count(dice, rolls) > 0
  {
    if |dice| > 0 {
      var n := |dice| - 1;
      AnyNat20Count(dice[..n], rolls[..n]);
      if AnyNat20(dice[..n], rolls[..n]) {
        var i :| 0 <= i < n && Nat20(dice[..n][i], rolls[..n][i]);
        assert Nat20(dice[i], rolls[i]);
      }
      if AnyNat20(dice, rolls) && !Nat20(dice[n], rolls[n]) {
        var i :| 0 <= i < |dice| && Nat20(dice[i], rolls[i]);
        assert Nat20(dice[..n][i], rolls[..n][i]);
      }
    }
  }

  /** With no d20 showing 1 or 20 the two rule sets agree on whether the
      attack lands; they may still disagree on whether it is critical. */
  lemma RulesAgreeOnMiss(rc: RollCollection, targetAc: int, rolls: seq<int>)
    requires |rolls| == |rc.dice|
    requires Nat20Count(rc.dice, rolls) == 0 && Nat1Count(rc.dice, rolls) == 0
    ensures DndRule(rc, targetAc, rolls) == Miss <==> PathfinderRule(rc, targetAc, rolls) == Miss
    ensures DndRule(rc, targetAc, rolls) != CriticalHit
  {
    NaturalAdjustmentCounts(rc.dice, rolls);
    AnyNat20Count(rc.dice, rolls);
  }

  /** Under the tiered rule a natural 20 not cancelled by a natural 1 never
      misses, whatever the target. */
  lemma PathfinderNat20NeverMisses(rc: RollCollection, targetAc: int, rolls: seq<int>)
    requires |rolls| == |rc.dice|
    requires Nat20Count(rc.dice, rolls) > Nat1Count(rc.dice, rolls)
    ensures PathfinderRule(rc, targetAc, rolls) != Miss
  {
    NaturalAdjustmentCounts(rc.dice, rolls);
  }

  /** Under the tiered rule a natural 1 not cancelled by a natural 20 never
      crits, whatever the total. */
  lemma PathfinderNat1NeverCrits(rc: RollCollection, targetAc: int, rolls: seq<int>)
    requires |rolls| == |rc.dice|
    requires Nat1Count(rc.dice, rolls) > Nat20Count(rc.dice, rolls)
    ensures PathfinderRule(rc, targetAc, rolls) != CriticalHit
  {
    NaturalAdjustmentCounts(rc.dice, rolls);
  }

  /** Beating the target by ten or more is a critical hit under the tiered
      rule without naturals, and one natural 1 downgrades it to a hit. */
  lemma PathfinderBeatByTen(rc: RollCollection, targetAc: int, rolls: seq<int>)
    requires |rolls| == |rc.dice|
    requires RollTotal(rc, rolls) >= targetAc + 10 && Nat20Count(rc.dice, rolls) == 0
    ensures Nat1Count(rc.dice, rolls) == 0 ==> PathfinderRule(rc, targetAc, rolls) == CriticalHit
    ensures Nat1Count(rc.dice, rolls) == 1 ==> PathfinderRule(rc, targetAc, rolls) == Hit
  {
    NaturalAdjustmentCounts(rc.dice, rolls);
  }

  /** Under the 5e rule a natural 20 is a critical hit against any target. */
  lemma DndNat20Crits(rc: RollCollection, targetAc: int, rolls: seq<int>)
    requires |rolls| == |rc.dice|
    requires Nat20Count(rc.dice, rolls) > 0
    ensures DndRule(rc, targetAc, rolls) == CriticalHit
  {
    AnyNat20Count(rc.dice, rolls);
  }

  /** Raising the target never improves the outcome, under either rule. */
  lemma TargetMonotone(rc: RollCollection, a: int, b: int, rolls: seq<int>)
    requires |rolls| == |rc.dice| && a <= b
    ensures Rank(DndRule(rc, b, rolls)) <= Rank(DndRule(rc, a, rolls))
    ensures Rank(PathfinderRule(rc, b, rolls)) <= Rank(PathfinderRule(rc, a, rolls))
  {
  }

  /** The outcome of a to-hit roll under the collection's own rule set. */
  function AcOutcome(rc: RollCollection, targetAc: int, rolls: seq<int>): HitResult
    requires |rolls| == |rc.dice|
  {
    match rc.ruleMode
    case DND5e => DndRule(rc, targetAc, rolls)
    case PF2e => PathfinderRule(rc, targetAc, rolls)
  }

  /** Rolls against an armour class, dispatching only on the rule set. */
  method RollAgainstArmourClass(rc: RollCollection, targetAc: int, rolls: seq<int>) returns (r: HitResult)
    requires |rolls| == |rc.dice|
    ensures rc.ruleMode == DND5e ==> r == DndRule(rc, targetAc, rolls)
    ensures rc.ruleMode == PF2e ==> r == PathfinderRule(rc, targetAc, rolls)
  {
    match rc.ruleMode
    case DND5e =>
      r := EvalAcRollDnd(rc, targetAc, rolls);
    case PF2e =>
      r := EvalAcRollPathfinder(rc, targetAc, rolls);
  }

  // ---------------------------------------------------------------------
  // Damage

  /** Damage of a roll under a hit outcome: the dice's results plus every
      modifier evaluated under that outcome. On a miss only the OnMiss
      modifiers add; on a hit all but the OnCritical ones; on a critical
      hit all of them, the CanCritical ones twice. */
  function RollDamageResult(rc: RollCollection, hit: HitResult, dieResults: seq<int>): (r: int)
    requires |dieResults| == |rc.dice|
    ensures hit == Miss ==> r == Sum(dieResults) + TaggedTotal(rc.modifiers, OnMiss)
    ensures hit == Hit ==> r == Sum(dieResults) + Sum(Values(rc.modifiers)) - TaggedTotal(rc.modifiers, OnCritical)
    ensures hit == CriticalHit ==> r == Sum(dieResults) + Sum(Values(rc.modifiers)) + TaggedTotal(rc.modifiers, CanCritical)
  {
    MissTotal(rc.modifiers);
    HitTotal(rc.modifiers);
    CriticalOverHit(rc.modifiers);
    Sum(dieResults) + ModifierTotal(rc.modifiers, Some(hit))
  }

  // ---------------------------------------------------------------------
  // Rendering notation and reading it back

  function FatalText(fatal: Option<nat>): string
  {
    match fatal
    case None => ""
    case Some(f) => "~" + NatStr(f)
  }

  /** A die token written as `NdS`, its reroll token and `~F` when fatal. */
  function DiceNotation(t: DiceToken): string
  {
    NatStr(t.count) + "d" + NatStr(t.size) + GroupText(t.reroll) + FatalText(t.fatal)
  }

  /** The `\d+d\d+` core of a written token, when the next character is not
      a digit. */
  lemma CoreRead(s: string, c: string, z: string, tail: string)
    requires |c| >= 1 && AllDigits(c) && |z| >= 1 && AllDigits(z)
    requires |tail| == 0 || !IsDigit(tail[0])
    requires s == c + "d" + z + tail
    ensures ValidSpan(s, DieSpan(0, |c|, |c| + 1 + |z|))
    ensures FirstPlainDie(s, 0) == Some(DieSpan(0, |c|, |c| + 1 + |z|))
    ensures SpanCount(s, DieSpan(0, |c|, |c| + 1 + |z|)) == DigitsValue(c)
    ensures SpanSize(s, DieSpan(0, |c|, |c| + 1 + |z|)) == DigitsValue(z)
  {
    var sep := |c|;
    var stop := sep + 1 + |z|;
    CoreShape(s, c, z, tail);
    SpanAtStart(s, |c|, |c| + 1 + |z|);
    SpanValues(s, DieSpan(0, |c|, |c| + 1 + |z|), c, z);
  }

  /** A span's count and size are the values of its two digit runs. */
  lemma SpanValues(s: string, m: DieSpan, c: string, z: string)
    requires ValidSpan(s, m) && s[m.start..m.sep] == c && s[m.sep + 1..m.stop] == z
    ensures AllDigits(c) && AllDigits(z)
    ensures SpanCount(s, m) == DigitsValue(c) && SpanSize(s, m) == DigitsValue(z)
  {
  }

  lemma CoreShape(s: string, c: string, z: string, tail: string)
    requires |c| >= 1 && AllDigits(c) && |z| >= 1 && AllDigits(z)
    requires |tail| == 0 || !IsDigit(tail[0])
    requires s == c + "d" + z + tail
    ensures var sep, stop := |c|, |c| + 1 + |z|;
            && stop <= |s| && s[sep] == 'd' && s[0..sep] == c && s[sep + 1..stop] == z
            && (stop == |s| || !IsDigit(s[stop]))
  {
    var stop := |c| + 1 + |z|;
    assert s[0..|c|] == c;
    assert s[|c| + 1..stop] == z;
    assert stop == |s| || s[stop] == tail[0];
  }

  /** Two maximal digit runs around a `d` at the start of the text are its
      first `\d+d\d+` match. */
  lemma SpanAtStart(s: string, sep: nat, stop: nat)
    requires 0 < sep && sep + 1 < stop <= |s| && s[sep] == 'd'
    requires AllDigits(s[0..sep]) && AllDigits(s[sep + 1..stop])
    requires stop == |s| || !IsDigit(s[stop])
    ensures ValidSpan(s, DieSpan(0, sep, stop))
    ensures FirstPlainDie(s, 0) == Some(DieSpan(0, sep, stop))
  {
    assert forall k :: 0 <= k < sep ==> s[k] == s[0..sep][k];
    RunEndIs(s, 0, sep);
    assert forall k :: sep + 1 <= k < stop ==> s[k] == s[sep + 1..stop][k - sep - 1];
    RunEndIs(s, sep + 1, stop);
  }

  /** The reroll group reads back the token written, when what follows is a
      fatal group, a signed modifier or nothing. */
  lemma RerollRead(x: string, r: RerollGroup, y: string)
    requires |y| == 0 || y[0] in {'~', '+', '-'}
    ensures RerollAt(x + GroupText(r) + y, |x|) == r
  {
    var text := GroupText(r);
    var s := x + text + y;
    assert forall k :: |x| <= k < |x| + |text| ==> s[k] == text[k - |x|];
    assert |x| + |text| == |s| || s[|x| + |text|] == y[0];
  }

  /** The fatal group reads back the value written, when what follows is a
      signed modifier or nothing. */
  lemma FatalRead(x: string, f: Option<nat>, rest: string)
    requires |rest| == 0 || IsSign(rest[0])
    ensures FatalAt(x + FatalText(f) + rest, |x|) == f
  {
    var s := x + FatalText(f) + rest;
    var m := |x|;
    if f.None? {
      assert s == x + rest;
      assert m == |s| || s[m] == rest[0];
    } else {
      assert s == x + ("~" + NatStr(f.value)) + rest;
      FatalTextRead(x, NatStr(f.value), rest);
    }
  }

  lemma FatalTextRead(x: string, fd: string, rest: string)
    requires |fd| >= 1 && AllDigits(fd)
    requires |rest| == 0 || IsSign(rest[0])
    ensures FatalAt(x + ("~" + fd) + rest, |x|) == Some(DigitsValue(fd))
  {
    FatalTextShape(x, fd, rest);
    FatalDigitsAt(x + ("~" + fd) + rest, |x|, fd);
  }

  lemma FatalTextShape(x: string, fd: string, rest: string)
    requires |fd| >= 1 && AllDigits(fd)
    requires |rest| == 0 || IsSign(rest[0])
    ensures var s, e := x + ("~" + fd) + rest, |x| + 1 + |fd|;
            && e <= |s| && s[|x|] == '~' && s[|x| + 1..e] == fd
            && (e == |s| || !IsDigit(s[e]))
  {
    var s := x + ("~" + fd) + rest;
    var e := |x| + 1 + |fd|;
    assert s[|x| + 1..e] == fd;
    assert e == |s| || s[e] == rest[0];
  }

  /** A `~` followed by a maximal digit run `fd` is a fatal group of value
      `fd`. */
  lemma FatalDigitsAt(s: string, m: nat, fd: string)
    requires |fd| >= 1 && AllDigits(fd)
    requires m + 1 + |fd| <= |s| && s[m] == '~' && s[m + 1..m + 1 + |fd|] == fd
    requires m + 1 + |fd| == |s| || !IsDigit(s[m + 1 + |fd|])
    ensures FatalAt(s, m) == Some(DigitsValue(fd))
  {
    var e := m + 1 + |fd|;
    forall k | m + 1 <= k < e
      ensures IsDigit(s[k])
    {
      assert s[k] == s[m + 1..e][k - m - 1];
    }
    RunEndIs(s, m + 1, e);
  }

  function CoreSpan(t: DiceToken): DieSpan
  {
    DieSpan(0, |NatStr(t.count)|, |NatStr(t.count)| + 1 + |NatStr(t.size)|)
  }

  /** What follows the size digits of a written token. */
  lemma NotationAfterSize(t: DiceToken, rest: string)
    requires |rest| == 0 || IsSign(rest[0])
    ensures |FatalText(t.fatal) + rest| == 0 || (FatalText(t.fatal) + rest)[0] in {'~', '+', '-'}
    ensures |GroupText(t.reroll) + FatalText(t.fatal) + rest| == 0 || !IsDigit((GroupText(t.reroll) + FatalText(t.fatal) + rest)[0])
  {
    var after := FatalText(t.fatal) + rest;
    if |FatalText(t.fatal)| > 0 {
      assert after[0] == FatalText(t.fatal)[0];
    }
    if |GroupText(t.reroll)| > 0 {
      assert (GroupText(t.reroll) + after)[0] == GroupText(t.reroll)[0];
    }
    assert GroupText(t.reroll) + FatalText(t.fatal) + rest == GroupText(t.reroll) + after;
  }

  lemma NotationCore(t: DiceToken, rest: string)
    requires |rest| == 0 || IsSign(rest[0])
    ensures ValidSpan(DiceNotation(t) + rest, CoreSpan(t))
    ensures FirstPlainDie(DiceNotation(t) + rest, 0) == Some(CoreSpan(t))
    ensures SpanCount(DiceNotation(t) + rest, CoreSpan(t)) == t.count
    ensures SpanSize(DiceNotation(t) + rest, CoreSpan(t)) == t.size
  {
    var tail := GroupText(t.reroll) + FatalText(t.fatal) + rest;
    NotationAfterSize(t, rest);
    NotationShape(t, rest);
    CoreRead(DiceNotation(t) + rest, NatStr(t.count), NatStr(t.size), tail);
  }

  lemma NotationShape(t: DiceToken, rest: string)
    ensures DiceNotation(t) + rest == NatStr(t.count) + "d" + NatStr(t.size) + (GroupText(t.reroll) + FatalText(t.fatal) + rest)
  {
  }

  lemma NotationReroll(t: DiceToken, rest: string)
    requires |rest| == 0 || IsSign(rest[0])
    ensures CoreSpan(t).stop <= |DiceNotation(t) + rest|
    ensures RerollAt(DiceNotation(t) + rest, CoreSpan(t).stop) == t.reroll
  {
    var core := NatStr(t.count) + "d" + NatStr(t.size);
    NotationAfterSize(t, rest);
    RerollShape(t, rest);
    assert |core| == CoreSpan(t).stop;
    RerollRead(core, t.reroll, FatalText(t.fatal) + rest);
  }

  lemma RerollShape(t: DiceToken, rest: string)
    ensures DiceNotation(t) + rest == (NatStr(t.count) + "d" + NatStr(t.size)) + GroupText(t.reroll) + (FatalText(t.fatal) + rest)
  {
  }

  lemma NotationFatal(t: DiceToken, rest: string)
    requires |rest| == 0 || IsSign(rest[0])
    ensures CoreSpan(t).stop + |GroupText(t.reroll)| <= |DiceNotation(t) + rest|
    ensures FatalAt(DiceNotation(t) + rest, CoreSpan(t).stop + |GroupText(t.reroll)|) == t.fatal
  {
    var x := NatStr(t.count) + "d" + NatStr(t.size) + GroupText(t.reroll);
    assert DiceNotation(t) + rest == x + FatalText(t.fatal) + rest;
    assert |x| == CoreSpan(t).stop + |GroupText(t.reroll)|;
    FatalRead(x, t.fatal, rest);
  }

  /** The dice pattern reads back every token it can write, when what follows
      the token is nothing or a signed modifier. */
  lemma DiceNotationRoundTrip(t: DiceToken, rest: string)
    requires |rest| == 0 || IsSign(rest[0])
    ensures FirstDiceToken(DiceNotation(t) + rest) == Some(t)
  {
    var s, span := DiceNotation(t) + rest, CoreSpan(t);
    NotationCore(t, rest);
    NotationReroll(t, rest);
    NotationFatal(t, rest);
    TokenAtCaptures(s, span, t);
    TokenFromCaptures(s, span, t);
  }

  /** The first dice match is `t` once its core and every capture agree. */
  lemma TokenFromCaptures(s: string, span: DieSpan, t: DiceToken)
    requires FirstPlainDie(s, 0) == Some(span) && ValidSpan(s, span) && TokenAt(s, span) == t
    ensures FirstDiceToken(s) == Some(t)
  {
  }

  lemma TokenAtCaptures(s: string, span: DieSpan, t: DiceToken)
    requires ValidSpan(s, span) && SpanCount(s, span) == t.count && SpanSize(s, span) == t.size
    requires RerollAt(s, span.stop) == t.reroll
    requires span.stop + |GroupText(t.reroll)| <= |s| && FatalAt(s, span.stop + |GroupText(t.reroll)|) == t.fatal
    ensures TokenAt(s, span) == t
  {
  }

  /** The characters dice notation is written with are never commas. */
  lemma NotationCommaFree(t: DiceToken, vs: seq<int>)
    ensures Free(DiceNotation(t) + ModifiersText(vs), ',')
    ensures SignFree(DiceNotation(t))
  {
    var ft := FatalText(t.fatal);
    FatalTextPlain(t.fatal);
    ModifiersCommaFree(vs);
    PlainFree(NatStr(t.count), "d");
    PlainFree(NatStr(t.count) + "d", NatStr(t.size));
    PlainFree(NatStr(t.count) + "d" + NatStr(t.size), GroupText(t.reroll));
    PlainFree(NatStr(t.count) + "d" + NatStr(t.size) + GroupText(t.reroll), ft);
    assert Free(DiceNotation(t), ',') && SignFree(DiceNotation(t));
    FreeConcat(DiceNotation(t), ModifiersText(vs), ',');
  }

  lemma FatalTextPlain(f: Option<nat>)
    ensures Free(FatalText(f), ',') && SignFree(FatalText(f))
  {
    if f.Some? {
      var ft, fd := FatalText(f), NatStr(f.value);
      assert forall k :: 1 <= k < |ft| ==> ft[k] == fd[k - 1];
    }
  }

  /** Text without commas or signs stays so when extended by such text. */
  lemma PlainFree(x: string, y: string)
    requires Free(x, ',') && SignFree(x) && Free(y, ',') && SignFree(y)
    ensures Free(x + y, ',') && SignFree(x + y)
  {
    FreeConcat(x, y, ',');
    assert forall k :: |x| <= k < |x + y| ==> (x + y)[k] == y[k - |x|];
  }

  lemma FreeConcat(x: string, y: string, c: char)
    requires Free(x, c) && Free(y, c)
    ensures Free(x + y, c)
  {
    assert forall k :: |x| <= k < |x + y| ==> (x + y)[k] == y[k - |x|];
  }

  lemma {:induction false} ModifiersCommaFree(vs: seq<int>)
    ensures Free(ModifiersText(vs), ',')
  {
    if |vs| > 0 {
      ModifiersCommaFree(vs[1..]);
      var t := SignedStr(vs[0]);
      assert forall k :: 1 <= k < |t| ==> t[k] == t[1..][k - 1];
    }
  }

  /** Parsing a rendered token followed by rendered modifiers gives back
      `count` copies of the token's die ... */
  lemma NotationDiceRoundTrip(t: DiceToken, vs: seq<int>)
    ensures NotationDice(DiceNotation(t) + ModifiersText(vs)) == Repeat(TokenDie(t), t.count)
  {
    var s := DiceNotation(t) + ModifiersText(vs);
    NotationCommaFree(t, vs);
    SingleFragment(s);
    ModifiersTextTokens(vs);
    DiceNotationRoundTrip(t, ModifiersText(vs));
  }

  /** A notation without commas is a single fragment. */
  lemma SingleFragment(s: string)
    requires Free(s, ',')
    ensures NotationDice(s) == FragmentDice(s)
  {
    SplitPiece(s, "", ',');
    assert Split(s, {','}) == [s];
    assert [s][..0] == [];
    assert FragmentsDice([s]) == FragmentsDice([]) + FragmentDice(s);
  }

  /** ... and one modifier per value, in order, with the rule set's default
      behaviour. */
  lemma NotationModifiersRoundTrip(t: DiceToken, vs: seq<int>, ruleMode: Ruleset)
    ensures |NotationModifiers(DiceNotation(t) + ModifiersText(vs), ruleMode)| == |vs|
    ensures forall i :: 0 <= i < |vs| ==>
              NotationModifiers(DiceNotation(t) + ModifiersText(vs), ruleMode)[i]
              == StaticModifier(vs[i], DefaultBehaviour(ruleMode))
  {
    NotationCommaFree(t, vs);
    ModifiersTextTokens(vs);
    SignFreePrefix(DiceNotation(t), ModifiersText(vs), 0);
  }

  /** Joining fragments with commas and parsing gives the fragments' dice
      one after the other. */
  lemma FragmentsNotation(fragments: seq<string>)
    requires |fragments| >= 1
    requires forall i :: 0 <= i < |fragments| ==> Free(fragments[i], ',')
    ensures NotationDice(Join(fragments, ',')) == FragmentsDice(fragments)
  {
    SplitJoin(fragments, ',');
  }

  /** Dice of consecutive fragment lists are concatenated. */
  lemma {:induction false} FragmentsDiceAppend(a: seq<string>, b: seq<string>)
    ensures FragmentsDice(a + b) == FragmentsDice(a) + FragmentsDice(b)
    decreases |b|
  {
    if |b| == 0 {
      assert a + b == a;
    } else {
      var last := b[|b| - 1];
      assert (a + b)[..|a + b| - 1] == a + b[..|b| - 1];
      assert (a + b)[|a + b| - 1] == last;
      FragmentsDiceAppend(a, b[..|b| - 1]);
      calc {
        FragmentsDice(a + b);
        FragmentsDice(a + b[..|b| - 1]) + FragmentDice(last);
        FragmentsDice(a) + FragmentsDice(b[..|b| - 1]) + FragmentDice(last);
        FragmentsDice(a) + (FragmentsDice(b[..|b| - 1]) + FragmentDice(last));
      }
    }
  }
}
