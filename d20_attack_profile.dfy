/** The single-d20 generation of the attack profile: each damage element
    carries a to-hit modifier, every attack is one d20 against the target
    armour class, and the damage of an attack is one damage roll and one
    damage modifier combined by a per-ruleset table.

    The draws are inputs: for element `i`, `ElementDraw` holds the d20
    result and the damage roll and modifier the element reported. */
module D20AttackProfiles {
  import opened Combat
  import opened StaticModifiers
  import RollCollections

  /** The 5e rule: a natural 20 is a critical hit whatever the modifier and
      target; otherwise a hit iff roll plus modifier reaches the target. */
  function Roll5eAttack(d20Roll: int, hitModifier: int, targetAc: int): (r: HitResult)
    ensures r == CriticalHit <==> d20Roll == 20
    ensures d20Roll != 20 ==> (r == Hit <==> d20Roll + hitModifier >= targetAc)
  {
    if d20Roll == 20 then CriticalHit
    else if d20Roll + hitModifier >= targetAc then Hit
    else Miss
  }

  /** The tier of the flat roll (2 when it beats the target by ten or more,
      1 when it reaches it, else 0), raised by one on a natural 20 and
      lowered by one on a natural 1. */
  function AdjustedState(d20Roll: int, hitModifier: int, targetAc: int): (state: int)
    ensures -1 <= state <= 3
    ensures state == 3 <==> d20Roll == 20 && d20Roll + hitModifier >= targetAc + 10
  {
    RollCollections.Tier(d20Roll + hitModifier - targetAc)
    + (if d20Roll == 20 then 1 else 0) - (if d20Roll == 1 then 1 else 0)
  }

  /** The tiered rule as written: state 2 is a critical hit, state 1 a hit,
      and every other state a miss, including the state 3 a natural 20
      reaches from a roll that already beat the target by ten. */
  function Roll2eAttack(d20Roll: int, hitModifier: int, targetAc: int): (r: HitResult)
    ensures r == CriticalHit <==> AdjustedState(d20Roll, hitModifier, targetAc) == 2
    ensures r == Hit <==> AdjustedState(d20Roll, hitModifier, targetAc) == 1
  {
    match AdjustedState(d20Roll, hitModifier, targetAc)
    case 2 => CriticalHit
    case 1 => Hit
    case _ => Miss
  }

  /** The tiered rule as intended: every state above 1 is a critical hit. */
  function Roll2eAttackCorrected(d20Roll: int, hitModifier: int, targetAc: int): (r: HitResult)
    ensures r == CriticalHit <==> AdjustedState(d20Roll, hitModifier, targetAc) >= 2
    ensures r == Hit <==> AdjustedState(d20Roll, hitModifier, targetAc) == 1
  {
    RollCollections.Classify(AdjustedState(d20Roll, hitModifier, targetAc))
  }

  /** A natural 20 on a roll that already beat the target by ten is a miss
      as written, and a critical hit as intended. */
  lemma Roll2eAttackNat20Counterexample()
    ensures Roll2eAttack(20, 10, 1) == Miss
    ensures Roll2eAttackCorrected(20, 10, 1) == CriticalHit
  {
  }

  /** The two versions differ exactly on a natural 20 that beats the target
      by ten or more. */
  lemma Roll2eAttackDiffers(d20Roll: int, hitModifier: int, targetAc: int)
    ensures Roll2eAttack(d20Roll, hitModifier, targetAc) != Roll2eAttackCorrected(d20Roll, hitModifier, targetAc)
            <==> d20Roll == 20 && d20Roll + hitModifier >= targetAc + 10
  {
  }

  /** As intended, a larger modifier never gives a worse outcome; the
      version as written breaks this at the natural 20 above. */
  lemma Roll2eAttackCorrectedMonotone(d20Roll: int, m1: int, m2: int, targetAc: int)
    requires m1 <= m2
    ensures Rank(Roll2eAttackCorrected(d20Roll, m1, targetAc)) <= Rank(Roll2eAttackCorrected(d20Roll, m2, targetAc))
  {
  }

  /** One d20 with a to-hit modifier, as a roll collection of the current
      engine. */
  function SingleD20(hitModifier: int, ruleMode: Ruleset): RollCollections.RollCollection
  {
    RollCollections.RollCollection([RollCollections.Die(1, 20, Standard, None)], [StaticModifier(hitModifier, OnHit)], ruleMode)
  }

  lemma SingleD20Facts(hitModifier: int, ruleMode: Ruleset, d20Roll: int)
    ensures RollCollections.RollTotal(SingleD20(hitModifier, ruleMode), [d20Roll]) == d20Roll + hitModifier
    ensures RollCollections.AnyNat20(SingleD20(hitModifier, ruleMode).dice, [d20Roll]) <==> d20Roll == 20
    ensures RollCollections.NaturalAdjustment(SingleD20(hitModifier, ruleMode).dice, [d20Roll])
            == (if d20Roll == 20 then 1 else 0) - (if d20Roll == 1 then 1 else 0)
  {
    var rc := SingleD20(hitModifier, ruleMode);
    assert [d20Roll][..0] == [] && rc.dice[..0] == [] && rc.modifiers[..0] == [];
    assert ModifierTotal(rc.modifiers, None) == ModifierTotal([], None) + EvaluateResult(rc.modifiers[0], None);
    assert Sum([d20Roll]) == d20Roll;
    assert RollCollections.Nat20(rc.dice[0], d20Roll) <==> d20Roll == 20;
  }

  /** The 5e rule agrees with the current engine's rule on one d20. */
  lemma Roll5eAttackMatchesEngine(d20Roll: int, hitModifier: int, targetAc: int)
    ensures Roll5eAttack(d20Roll, hitModifier, targetAc)
            == RollCollections.DndRule(SingleD20(hitModifier, DND5e), targetAc, [d20Roll])
  {
    SingleD20Facts(hitModifier, DND5e, d20Roll);
  }

  /** The corrected tiered rule agrees with the current engine's tiered rule
      on one d20. */
  lemma Roll2eAttackCorrectedMatchesEngine(d20Roll: int, hitModifier: int, targetAc: int)
    ensures Roll2eAttackCorrected(d20Roll, hitModifier, targetAc)
            == RollCollections.PathfinderRule(SingleD20(hitModifier, PF2e), targetAc, [d20Roll])
  {
    SingleD20Facts(hitModifier, PF2e, d20Roll);
  }

  /** Updates the counters after one attack: a critical hit counts as a
      critical and as a hit, a hit as a hit, a miss not at all. */
  method TrackHits(attackResult: HitResult, critCounter: int, hitCounter: int) returns (crits: int, hits: int)
    ensures crits == critCounter + CountCrits([attackResult])
    ensures hits == hitCounter + CountHits([attackResult])
  {
    assert [attackResult][..0] == [];
    crits, hits := critCounter, hitCounter;
    match attackResult {
      case CriticalHit =>
        crits := crits + 1;
        hits := hits + 1;
      case Hit =>
        hits := hits + 1;
      case Miss =>
    }
  }

  /** Damage added for one attack. Under PF2e the roll and modifier behave
      as one modifier doubled on a critical hit; under 5e only the roll is
      doubled, the modifier is added once on any hit; a miss adds nothing. */
  function DetermineDamage(state: HitResult, ruleset: Ruleset, dmgRoll: int, dmgMod: int): (d: int)
    ensures ruleset == PF2e ==> d == EvaluateResult(StaticModifier(dmgRoll + dmgMod, CanCritical), Some(state))
    ensures ruleset == DND5e ==> d == EvaluateResult(StaticModifier(dmgRoll, CanCritical), Some(state))
                                     + EvaluateResult(StaticModifier(dmgMod, OnHit), Some(state))
  {
    match (state, ruleset)
    case (CriticalHit, PF2e) => 2 * (dmgRoll + dmgMod)
    case (CriticalHit, DND5e) => 2 * dmgRoll + dmgMod
    case (Hit, _) => dmgRoll + dmgMod
    case (_, _) => 0
  }

  /** A critical hit doubles everything under PF2e and adds one more damage
      roll under 5e; a miss is worth nothing under both. */
  lemma CriticalDamage(ruleset: Ruleset, dmgRoll: int, dmgMod: int)
    ensures DetermineDamage(CriticalHit, PF2e, dmgRoll, dmgMod) == 2 * DetermineDamage(Hit, PF2e, dmgRoll, dmgMod)
    ensures DetermineDamage(CriticalHit, DND5e, dmgRoll, dmgMod) == DetermineDamage(Hit, DND5e, dmgRoll, dmgMod) + dmgRoll
    ensures DetermineDamage(Miss, ruleset, dmgRoll, dmgMod) == 0
    ensures DetermineDamage(Hit, DND5e, dmgRoll, dmgMod) == DetermineDamage(Hit, PF2e, dmgRoll, dmgMod)
  {
  }

  /** With a non-negative roll and modifier, a better outcome never deals
      less damage. */
  lemma DamageMonotone(ruleset: Ruleset, a: HitResult, b: HitResult, dmgRoll: int, dmgMod: int)
    requires Rank(a) <= Rank(b) && dmgRoll >= 0 && dmgMod >= 0
    ensures DetermineDamage(a, ruleset, dmgRoll, dmgMod) <= DetermineDamage(b, ruleset, dmgRoll, dmgMod)
  {
  }

  /** A profile: target armour class, the to-hit modifier of each damage
      element in order, and the rule family. */
  datatype D20AttackProfile = D20AttackProfile(targetAc: int, toHit: seq<int>, ruleset: Ruleset)

  /** What element `i` drew: the d20, the damage roll and the damage
      modifier. */
  datatype ElementDraw = ElementDraw(d20: int, dmgRoll: int, dmgMod: int)

  /** Which classification of the tiered rule a turn uses: the one of
      `Roll2eAttack` as written, or the corrected one. */
  datatype TierRule = AsWritten | Corrected

  /** Outcome of the attack of element `i`. */
  function AttackResult(p: D20AttackProfile, draw: ElementDraw, i: nat, rule: TierRule): HitResult
    requires i < |p.toHit|
  {
    match (p.ruleset, rule)
    case (DND5e, _) => Roll5eAttack(draw.d20, p.toHit[i], p.targetAc)
    case (PF2e, AsWritten) => Roll2eAttack(draw.d20, p.toHit[i], p.targetAc)
    case (PF2e, Corrected) => Roll2eAttackCorrected(draw.d20, p.toHit[i], p.targetAc)
  }

  /** Outcomes of the first `n` elements, in order. */
  function TurnOutcomes(p: D20AttackProfile, draws: seq<ElementDraw>, n: nat, rule: TierRule): (rs: seq<HitResult>)
    requires n <= |p.toHit| && |draws| == |p.toHit|
    ensures |rs| == n
    ensures forall i :: 0 <= i < n ==> rs[i] == AttackResult(p, draws[i], i, rule)
  {
    if n == 0 then [] else TurnOutcomes(p, draws, n - 1, rule) + [AttackResult(p, draws[n - 1], n - 1, rule)]
  }

  /** Damage of element `i` under its own outcome. */
  function ElementDamage(p: D20AttackProfile, draw: ElementDraw, i: nat, rule: TierRule): int
    requires i < |p.toHit|
  {
    DetermineDamage(AttackResult(p, draw, i, rule), p.ruleset, draw.dmgRoll, draw.dmgMod)
  }

  /** Damage of the first `n` elements. */
  function TurnDamage(p: D20AttackProfile, draws: seq<ElementDraw>, n: nat, rule: TierRule): int
    requires n <= |p.toHit| && |draws| == |p.toHit|
  {
    if n == 0 then 0 else TurnDamage(p, draws, n - 1, rule) + ElementDamage(p, draws[n - 1], n - 1, rule)
  }

  /** Rolls one attack per damage element and adds up crits, hits and
      damage; damage is determined for every element, misses included.
      PF2e attacks are classified by `Roll2eAttack` as written. */
  method RollTurn(p: D20AttackProfile, draws: seq<ElementDraw>) returns (crits: int, hits: int, damage: int)
    requires |draws| == |p.toHit|
    ensures crits == CountCrits(TurnOutcomes(p, draws, |p.toHit|, AsWritten))
    ensures hits == CountHits(TurnOutcomes(p, draws, |p.toHit|, AsWritten))
    ensures damage == TurnDamage(p, draws, |p.toHit|, AsWritten)
  {
    crits, hits, damage := 0, 0, 0;
    for i := 0 to |p.toHit|
      invariant crits == CountCrits(TurnOutcomes(p, draws, i, AsWritten))
      invariant hits == CountHits(TurnOutcomes(p, draws, i, AsWritten))
      invariant damage == TurnDamage(p, draws, i, AsWritten)
    {
      var attackResult, elementDamage := RollElement(p, draws[i], i);
      TurnStep(p, draws, i, AsWritten);
      CountStep(TurnOutcomes(p, draws, i, AsWritten), attackResult);
      crits, hits := TrackHits(attackResult, crits, hits);
      damage := damage + elementDamage;
    }
  }

  /** Rolls one damage element: its attack under the profile's rule set
      (the tiered rule as written under PF2e), then its damage under that
      outcome. */
  method RollElement(p: D20AttackProfile, draw: ElementDraw, i: nat) returns (attackResult: HitResult, damage: int)
    requires i < |p.toHit|
    ensures attackResult == AttackResult(p, draw, i, AsWritten)
    ensures damage == ElementDamage(p, draw, i, AsWritten)
  {
    match p.ruleset {
      case DND5e =>
        attackResult := Roll5eAttack(draw.d20, p.toHit[i], p.targetAc);
      case PF2e =>
        attackResult := Roll2eAttack(draw.d20, p.toHit[i], p.targetAc);
    }
    damage := DetermineDamage(attackResult, p.ruleset, draw.dmgRoll, draw.dmgMod);
  }

  /** One more element extends the outcomes by its own and adds its own
      damage. */
  lemma TurnStep(p: D20AttackProfile, draws: seq<ElementDraw>, i: nat, rule: TierRule)
    requires i < |p.toHit| && |draws| == |p.toHit|
    ensures TurnOutcomes(p, draws, i + 1, rule) == TurnOutcomes(p, draws, i, rule) + [AttackResult(p, draws[i], i, rule)]
    ensures TurnDamage(p, draws, i + 1, rule) == TurnDamage(p, draws, i, rule) + ElementDamage(p, draws[i], i, rule)
  {
  }

  /** A turn never counts more crits than hits, nor more hits than damage
      elements. */
  lemma TurnCountsBounded(p: D20AttackProfile, draws: seq<ElementDraw>, rule: TierRule)
    requires |draws| == |p.toHit|
    ensures CountCrits(TurnOutcomes(p, draws, |p.toHit|, rule)) <= CountHits(TurnOutcomes(p, draws, |p.toHit|, rule)) <= |p.toHit|
  {
    CountsOrdered(TurnOutcomes(p, draws, |p.toHit|, rule));
  }

  /** A missed element deals nothing. */
  lemma MissedElement(p: D20AttackProfile, draw: ElementDraw, i: nat, rule: TierRule)
    requires i < |p.toHit| && AttackResult(p, draw, i, rule) == Miss
    ensures ElementDamage(p, draw, i, rule) == 0
  {
    CriticalDamage(p.ruleset, draw.dmgRoll, draw.dmgMod);
  }

  /** Damage is determined for every element, but a turn whose every
      attack misses deals nothing and counts no hits. */
  lemma {:induction false} MissesAddNothing(p: D20AttackProfile, draws: seq<ElementDraw>, n: nat, rule: TierRule)
    requires n <= |p.toHit| && |draws| == |p.toHit|
    requires forall i :: 0 <= i < n ==> AttackResult(p, draws[i], i, rule) == Miss
    ensures TurnDamage(p, draws, n, rule) == 0
    ensures CountHits(TurnOutcomes(p, draws, n, rule)) == 0
  {
    if n > 0 {
      MissesAddNothing(p, draws, n - 1, rule);
      TurnStep(p, draws, n - 1, rule);
      MissedElement(p, draws[n - 1], n - 1, rule);
      CountStep(TurnOutcomes(p, draws, n - 1, rule), Miss);
    }
  }

  /** Damage roll plus damage modifier over the first `n` draws. */
  function DrawTotal(draws: seq<ElementDraw>, n: nat): int
    requires n <= |draws|
  {
    if n == 0 then 0 else DrawTotal(draws, n - 1) + draws[n - 1].dmgRoll + draws[n - 1].dmgMod
  }

  /** With non-negative damage draws, a turn deals between nothing and twice
      what its elements drew: a critical hit at most doubles an element. */
  lemma {:induction false} TurnDamageBounded(p: D20AttackProfile, draws: seq<ElementDraw>, n: nat, rule: TierRule)
    requires n <= |p.toHit| && |draws| == |p.toHit|
    requires forall i :: 0 <= i < n ==> draws[i].dmgRoll >= 0 && draws[i].dmgMod >= 0
    ensures 0 <= TurnDamage(p, draws, n, rule) <= 2 * DrawTotal(draws, n)
  {
    if n > 0 {
      TurnDamageBounded(p, draws, n - 1, rule);
      var d := draws[n - 1];
      assert 0 <= ElementDamage(p, d, n - 1, rule) <= 2 * (d.dmgRoll + d.dmgMod);
    }
  }
  /** The rule as written and the corrected rule give the same turn unless
      some element is a PF2e natural 20 that beats the target by ten. */
  lemma {:induction false} TurnRulesAgree(p: D20AttackProfile, draws: seq<ElementDraw>, n: nat)
    requires n <= |p.toHit| && |draws| == |p.toHit|
    requires p.ruleset == PF2e ==>
               forall i :: 0 <= i < n ==> !(draws[i].d20 == 20 && draws[i].d20 + p.toHit[i] >= p.targetAc + 10)
    ensures TurnOutcomes(p, draws, n, AsWritten) == TurnOutcomes(p, draws, n, Corrected)
    ensures TurnDamage(p, draws, n, AsWritten) == TurnDamage(p, draws, n, Corrected)
  {
    if n > 0 {
      TurnRulesAgree(p, draws, n - 1);
      var d := draws[n - 1];
      Roll2eAttackDiffers(d.d20, p.toHit[n - 1], p.targetAc);
      assert AttackResult(p, d, n - 1, AsWritten) == AttackResult(p, d, n - 1, Corrected);
    }
  }
}

/** The documented cases of the single-d20 profile. */
module D20AttackProfileExamples {
  import opened Combat
  import opened D20AttackProfiles

  /** 5e: a d2 with +0 never reaches 20; any d20 with +1 reaches 1; a die
      fixed on 20 is a critical hit. */
  lemma Roll5eAttackExamples(d2: int, d20: int)
    requires 1 <= d2 <= 2 && 1 <= d20 <= 20
    ensures Roll5eAttack(d2, 0, 20) == Miss
    ensures Roll5eAttack(d20, 1, 1) == (if d20 == 20 then CriticalHit else Hit)
    ensures Roll5eAttack(20, 1, 1) == CriticalHit
  {
  }

  /** PF2e: misses, hits, critical hits by ten, and the natural 20 and
      natural 1 shifts, over every roll the documented dice allow. */
  lemma Roll2eAttackExamples(d2: int, d56: int)
    requires 1 <= d2 <= 2 && 5 <= d56 <= 6
    ensures Roll2eAttack(d2, 0, 20) == Miss
    ensures Roll2eAttack(d56, 0, 1) == Hit
    ensures Roll2eAttack(d56, 10, 1) == CriticalHit
    ensures Roll2eAttack(20, 1, 25) == Hit
    ensures Roll2eAttack(20, 1, 21) == CriticalHit
    ensures Roll2eAttack(1, 10, 2) == Miss
    ensures Roll2eAttack(1, 15, 5) == Hit
  {
  }

  /** Counting from zero. */
  method TrackHitsExamples() returns (onCritical: (int, int), onHit: (int, int), onMiss: (int, int))
    ensures onCritical == (1, 1) && onHit == (0, 1) && onMiss == (0, 0)
  {
    var c, h := TrackHits(CriticalHit, 0, 0);
    onCritical := (c, h);
    c, h := TrackHits(Hit, 0, 0);
    onHit := (c, h);
    c, h := TrackHits(Miss, 0, 0);
    onMiss := (c, h);
  }

  /** Roll 1, modifier 1. */
  lemma DetermineDamageExamples()
    ensures DetermineDamage(CriticalHit, DND5e, 1, 1) == 3
    ensures DetermineDamage(CriticalHit, PF2e, 1, 1) == 4
    ensures DetermineDamage(Hit, DND5e, 1, 1) == 2 && DetermineDamage(Hit, PF2e, 1, 1) == 2
    ensures DetermineDamage(Miss, DND5e, 1, 1) == 0 && DetermineDamage(Miss, PF2e, 1, 1) == 0
  {
  }

  /** One element with +10 to hit against armour class 10 always hits, and
      a d6 plus 1 always deals damage. */
  lemma RollTurnExample(d20: int, dmgRoll: int)
    requires 1 <= d20 <= 20 && 1 <= dmgRoll <= 6
    ensures CountHits(TurnOutcomes(D20AttackProfile(10, [10], DND5e), [ElementDraw(d20, dmgRoll, 1)], 1, AsWritten)) > 0
    ensures TurnDamage(D20AttackProfile(10, [10], DND5e), [ElementDraw(d20, dmgRoll, 1)], 1, AsWritten) > 0
  {
    var p := D20AttackProfile(10, [10], DND5e);
    var draws := [ElementDraw(d20, dmgRoll, 1)];
    assert TurnOutcomes(p, draws, 1, AsWritten) == [AttackResult(p, draws[0], 0, AsWritten)];
    assert [AttackResult(p, draws[0], 0, AsWritten)][..0] == [];
  }

  /** PF2e, +10 to hit against armour class 1, a natural 20, damage 3 plus
      2: as written the turn counts nothing and deals nothing; with the
      corrected rule it is a critical hit for 10. */
  lemma RollTurnNat20Example()
    ensures CountCrits(TurnOutcomes(D20AttackProfile(1, [10], PF2e), [ElementDraw(20, 3, 2)], 1, AsWritten)) == 0
    ensures CountHits(TurnOutcomes(D20AttackProfile(1, [10], PF2e), [ElementDraw(20, 3, 2)], 1, AsWritten)) == 0
    ensures TurnDamage(D20AttackProfile(1, [10], PF2e), [ElementDraw(20, 3, 2)], 1, AsWritten) == 0
    ensures CountCrits(TurnOutcomes(D20AttackProfile(1, [10], PF2e), [ElementDraw(20, 3, 2)], 1, Corrected)) == 1
    ensures CountHits(TurnOutcomes(D20AttackProfile(1, [10], PF2e), [ElementDraw(20, 3, 2)], 1, Corrected)) == 1
    ensures TurnDamage(D20AttackProfile(1, [10], PF2e), [ElementDraw(20, 3, 2)], 1, Corrected) == 10
  {
    var p := D20AttackProfile(1, [10], PF2e);
    var draws := [ElementDraw(20, 3, 2)];
    Roll2eAttackNat20Counterexample();
    assert AttackResult(p, draws[0], 0, AsWritten) == Miss;
    assert AttackResult(p, draws[0], 0, Corrected) == CriticalHit;
    OneElementTurn(p, draws, AsWritten);
    OneElementTurn(p, draws, Corrected);
  }

  /** A turn of one element counts and deals what that element does. */
  lemma OneElementTurn(p: D20AttackProfile, draws: seq<ElementDraw>, rule: TierRule)
    requires |p.toHit| == 1 && |draws| == 1
    ensures CountCrits(TurnOutcomes(p, draws, 1, rule)) == CountCrits([AttackResult(p, draws[0], 0, rule)])
    ensures CountHits(TurnOutcomes(p, draws, 1, rule)) == CountHits([AttackResult(p, draws[0], 0, rule)])
    ensures TurnDamage(p, draws, 1, rule) == ElementDamage(p, draws[0], 0, rule)
  {
    TurnStep(p, draws, 0, rule);
    assert TurnOutcomes(p, draws, 1, rule) == [AttackResult(p, draws[0], 0, rule)];
  }
}
