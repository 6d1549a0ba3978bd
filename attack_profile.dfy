/** One turn of attacks: to-hit collections paired in order with damage
    collections, every pair rolled against the same armour class.

    The draws of a turn are inputs: for pair `i`, `toHit` holds what each
    to-hit die showed and `damage` what each damage die reported under the
    outcome that pair reached. */
module AttackProfiles {
  import opened Combat
  import opened StaticModifiers
  import opened RollCollections

  datatype AttackProfile = AttackProfile(targetAc: int, hitCollection: seq<RollCollection>, damageCollection: seq<RollCollection>)

  /** Builds a profile holding exactly the armour class and collections
      given. */
  function New(targetAc: int, hitCollection: seq<RollCollection>, damageCollection: seq<RollCollection>): (p: AttackProfile)
    ensures p.targetAc == targetAc && p.hitCollection == hitCollection && p.damageCollection == damageCollection
  {
    AttackProfile(targetAc, hitCollection, damageCollection)
  }

  datatype AttackDraw = AttackDraw(toHit: seq<int>, damage: seq<int>)

  /** Number of attacks in a turn: the pairs are zipped, so the shorter list
      decides and the extra collections of the longer one are never rolled. */
  function Pairs(p: AttackProfile): (n: nat)
    ensures n <= |p.hitCollection| && n <= |p.damageCollection|
    ensures n == |p.hitCollection| || n == |p.damageCollection|
  {
    if |p.hitCollection| <= |p.damageCollection| then |p.hitCollection| else |p.damageCollection|
  }

  /** One draw per attack, each with one result per die. */
  predicate DrawsFit(p: AttackProfile, draws: seq<AttackDraw>)
  {
    && |draws| == Pairs(p)
    && forall i :: 0 <= i < Pairs(p) ==>
         |draws[i].toHit| == |p.hitCollection[i].dice| && |draws[i].damage| == |p.damageCollection[i].dice|
  }

  /** Outcome of attack `i`. */
  function AttackOutcome(p: AttackProfile, draws: seq<AttackDraw>, i: nat): HitResult
    requires DrawsFit(p, draws) && i < Pairs(p)
  {
    AcOutcome(p.hitCollection[i], p.targetAc, draws[i].toHit)
  }

  /** Damage of attack `i` under its own outcome. */
  function AttackDamage(p: AttackProfile, draws: seq<AttackDraw>, i: nat): int
    requires DrawsFit(p, draws) && i < Pairs(p)
  {
    RollDamageResult(p.damageCollection[i], AttackOutcome(p, draws, i), draws[i].damage)
  }

  /** Outcomes of the first `n` attacks, in order. */
  function Outcomes(p: AttackProfile, draws: seq<AttackDraw>, n: nat): (rs: seq<HitResult>)
    requires DrawsFit(p, draws) && n <= Pairs(p)
    ensures |rs| == n
    ensures forall i :: 0 <= i < n ==> rs[i] == AttackOutcome(p, draws, i)
  {
    if n == 0 then [] else Outcomes(p, draws, n - 1) + [AttackOutcome(p, draws, n - 1)]
  }

  /** Damage of the first `n` attacks. */
  function DamageUpTo(p: AttackProfile, draws: seq<AttackDraw>, n: nat): int
    requires DrawsFit(p, draws) && n <= Pairs(p)
  {
    if n == 0 then 0 else DamageUpTo(p, draws, n - 1) + AttackDamage(p, draws, n - 1)
  }

  /** Rolls a turn: each pair's to-hit collection against the armour class,
      then its damage collection under that outcome. Returns the number of
      critical hits, the number of hits (a critical hit counts as a hit) and
      the total damage. */
  method RollTurn(p: AttackProfile, draws: seq<AttackDraw>) returns (crits: int, hits: int, damage: int)
    requires DrawsFit(p, draws)
    ensures crits == CountCrits(Outcomes(p, draws, Pairs(p)))
    ensures hits == CountHits(Outcomes(p, draws, Pairs(p)))
    ensures damage == DamageUpTo(p, draws, Pairs(p))
  {
    crits, hits, damage := 0, 0, 0;
    for i := 0 to Pairs(p)
      invariant crits == CountCrits(Outcomes(p, draws, i)) && hits == CountHits(Outcomes(p, draws, i))
      invariant damage == DamageUpTo(p, draws, i)
    {
      NextAttack(p, draws, i);
      CountStep(Outcomes(p, draws, i), AttackOutcome(p, draws, i));
      crits, hits, damage := RollAttack(p, draws, i, crits, hits, damage);
    }
  }

  /** One pass of the turn loop: rolls pair `i`'s to-hit collection against
      the armour class, adds its damage collection's result under that
      outcome, and counts the outcome. */
  method RollAttack(p: AttackProfile, draws: seq<AttackDraw>, i: nat, critCounter: int, hitCounter: int, totalDamage: int)
    returns (crits: int, hits: int, damage: int)
    requires DrawsFit(p, draws) && i < Pairs(p)
    ensures crits == critCounter + CountCrits([AttackOutcome(p, draws, i)])
    ensures hits == hitCounter + CountHits([AttackOutcome(p, draws, i)])
    ensures damage == totalDamage + AttackDamage(p, draws, i)
  {
    crits, hits := critCounter, hitCounter;
    var hitResult := RollAgainstArmourClass(p.hitCollection[i], p.targetAc, draws[i].toHit);
    damage := totalDamage + RollDamageResult(p.damageCollection[i], hitResult, draws[i].damage);
    CountStep([], hitResult);
    match hitResult {
      case CriticalHit =>
        crits := crits + 1;
        hits := hits + 1;
      case Hit =>
        hits := hits + 1;
      case Miss =>
    }
  }

  /** Counting one more attack adds its own outcome and damage. */
  lemma NextAttack(p: AttackProfile, draws: seq<AttackDraw>, i: nat)
    requires DrawsFit(p, draws) && i < Pairs(p)
    ensures Outcomes(p, draws, i + 1) == Outcomes(p, draws, i) + [AttackOutcome(p, draws, i)]
    ensures DamageUpTo(p, draws, i + 1) == DamageUpTo(p, draws, i) + AttackDamage(p, draws, i)
  {
  }

  /** Whatever the draws, a turn's crits never exceed its hits, and its hits
      never exceed the number of attacks. */
  lemma TurnCountsBounded(p: AttackProfile, draws: seq<AttackDraw>)
    requires DrawsFit(p, draws)
    ensures 0 <= CountCrits(Outcomes(p, draws, Pairs(p))) <= CountHits(Outcomes(p, draws, Pairs(p))) <= Pairs(p)
  {
    CountsOrdered(Outcomes(p, draws, Pairs(p)));
  }

  /** A turn in which every attack misses counts no hits, and its damage is
      what the damage dice report plus the OnMiss modifiers. */
  lemma {:induction false} MissedTurn(p: AttackProfile, draws: seq<AttackDraw>, n: nat)
    requires DrawsFit(p, draws) && n <= Pairs(p)
    requires forall i :: 0 <= i < n ==> AttackOutcome(p, draws, i) == Miss
    ensures CountHits(Outcomes(p, draws, n)) == 0 && CountCrits(Outcomes(p, draws, n)) == 0
    ensures DamageUpTo(p, draws, n) == MissDamageUpTo(p, draws, n)
  {
    if n > 0 {
      MissedTurn(p, draws, n - 1);
      assert Outcomes(p, draws, n)[..n - 1] == Outcomes(p, draws, n - 1);
    }
  }

  /** What the first `n` damage rolls come to on a miss. */
  function MissDamageUpTo(p: AttackProfile, draws: seq<AttackDraw>, n: nat): int
    requires DrawsFit(p, draws) && n <= Pairs(p)
  {
    if n == 0 then 0
    else MissDamageUpTo(p, draws, n - 1) + Sum(draws[n - 1].damage) + TaggedTotal(p.damageCollection[n - 1].modifiers, OnMiss)
  }

  /** To-hit collections beyond the shorter list change nothing. */
  lemma {:induction false} ExtraCollectionsIgnored(p: AttackProfile, extra: seq<RollCollection>, draws: seq<AttackDraw>, n: nat)
    requires |p.damageCollection| <= |p.hitCollection|
    requires DrawsFit(p, draws) && n <= Pairs(p)
    ensures DrawsFit(AttackProfile(p.targetAc, p.hitCollection + extra, p.damageCollection), draws)
    ensures Outcomes(AttackProfile(p.targetAc, p.hitCollection + extra, p.damageCollection), draws, n)
            == Outcomes(p, draws, n)
    ensures DamageUpTo(AttackProfile(p.targetAc, p.hitCollection + extra, p.damageCollection), draws, n)
            == DamageUpTo(p, draws, n)
  {
    var q := AttackProfile(p.targetAc, p.hitCollection + extra, p.damageCollection);
    assert Pairs(q) == Pairs(p);
    assert forall i :: 0 <= i < Pairs(p) ==> q.hitCollection[i] == p.hitCollection[i];
    if n > 0 {
      ExtraCollectionsIgnored(p, extra, draws, n - 1);
    }
  }
  /** Symmetrically, damage collections beyond the shorter list change
      nothing. */
  lemma {:induction false} ExtraDamageCollectionsIgnored(p: AttackProfile, extra: seq<RollCollection>, draws: seq<AttackDraw>, n: nat)
    requires |p.hitCollection| <= |p.damageCollection|
    requires DrawsFit(p, draws) && n <= Pairs(p)
    ensures DrawsFit(AttackProfile(p.targetAc, p.hitCollection, p.damageCollection + extra), draws)
    ensures Outcomes(AttackProfile(p.targetAc, p.hitCollection, p.damageCollection + extra), draws, n)
            == Outcomes(p, draws, n)
    ensures DamageUpTo(AttackProfile(p.targetAc, p.hitCollection, p.damageCollection + extra), draws, n)
            == DamageUpTo(p, draws, n)
  {
    var q := AttackProfile(p.targetAc, p.hitCollection, p.damageCollection + extra);
    assert Pairs(q) == Pairs(p);
    assert forall i :: 0 <= i < Pairs(p) ==> q.damageCollection[i] == p.damageCollection[i];
    if n > 0 {
      ExtraDamageCollectionsIgnored(p, extra, draws, n - 1);
    }
  }
}

/** The documented turn: three attacks at armour class 10 that crit, hit
    and miss. */
module AttackProfileExamples {
  import opened Combat
  import opened StaticModifiers
  import opened RollCollections
  import opened AttackProfiles
  import opened RollCollectionExamples

  function Collection(rollMin: int, rollMax: int, ruleMode: Ruleset): RollCollection
  {
    RollCollection([Die(rollMin, rollMax, Standard, None)], [StaticModifier(0, OnHit)], ruleMode)
  }

  function MixedProfile(): AttackProfile
  {
    AttackProfile(10,
                  [Collection(20, 20, DND5e), Collection(12, 14, DND5e), Collection(1, 2, DND5e)],
                  [Collection(2, 2, DND5e), Collection(1, 1, DND5e), Collection(1, 1, DND5e)])
  }

  /** One die showing `roll` with a +0 modifier. */
  lemma SingleRoll(lo: int, hi: int, targetAc: int, roll: int)
    ensures AcOutcome(Collection(lo, hi, DND5e), targetAc, [roll])
            == if roll == 20 && hi == 20 then CriticalHit else if roll >= targetAc then Hit else Miss
    ensures forall h :: RollDamageResult(Collection(lo, hi, DND5e), h, [roll]) == roll
  {
    OneDie(Die(lo, hi, Standard, None), roll);
    OneModifier(StaticModifier(0, OnHit), None);
    forall h: HitResult
      ensures RollDamageResult(Collection(lo, hi, DND5e), h, [roll]) == roll
    {
      OneModifier(StaticModifier(0, OnHit), Some(h));
    }
  }

  /** Crit, hit and miss: one crit, two hits, and damage 4 + 1 + 0 when the
      damage dice report 4 (doubled), 1 and 0 (nothing on a miss). */
  lemma MixedTurn(r2: int, r3: int)
    requires 12 <= r2 <= 14 && 1 <= r3 <= 2
    ensures DrawsFit(MixedProfile(), [AttackDraw([20], [4]), AttackDraw([r2], [1]), AttackDraw([r3], [0])])
    ensures Outcomes(MixedProfile(), [AttackDraw([20], [4]), AttackDraw([r2], [1]), AttackDraw([r3], [0])], 3)
            == [CriticalHit, Hit, Miss]
    ensures DamageUpTo(MixedProfile(), [AttackDraw([20], [4]), AttackDraw([r2], [1]), AttackDraw([r3], [0])], 3) == 5
  {
    var p := MixedProfile();
    var draws := [AttackDraw([20], [4]), AttackDraw([r2], [1]), AttackDraw([r3], [0])];
    MixedAttacks(r2, r3);
    ThreeAttacks(p, draws);
  }

  /** Two attacks that cannot reach armour class 10 (a d2-5 and a d2-6,
      +0): no crits, no hits and no damage, the damage dice reporting 0 on
      a miss. */
  lemma AllMissTurn(r1: int, r2: int)
    requires 2 <= r1 <= 5 && 2 <= r2 <= 6
    ensures DrawsFit(MissProfile(), [AttackDraw([r1], [0]), AttackDraw([r2], [0])])
    ensures CountCrits(Outcomes(MissProfile(), [AttackDraw([r1], [0]), AttackDraw([r2], [0])], 2)) == 0
    ensures CountHits(Outcomes(MissProfile(), [AttackDraw([r1], [0]), AttackDraw([r2], [0])], 2)) == 0
    ensures DamageUpTo(MissProfile(), [AttackDraw([r1], [0]), AttackDraw([r2], [0])], 2) == 0
  {
    var p := MissProfile();
    var draws := [AttackDraw([r1], [0]), AttackDraw([r2], [0])];
    SingleRoll(2, 5, 10, r1);
    SingleRoll(2, 6, 10, r2);
    SingleRoll(1, 1, 10, 0);
    assert DrawsFit(p, draws) && Pairs(p) == 2;
    assert AttackDamage(p, draws, 0) == 0 && AttackDamage(p, draws, 1) == 0;
    MissedTurn(p, draws, 2);
    assert DamageUpTo(p, draws, 1) == 0;
  }

  function MissProfile(): AttackProfile
  {
    AttackProfile(10,
                  [Collection(2, 5, DND5e), Collection(2, 6, DND5e)],
                  [Collection(1, 1, DND5e), Collection(1, 1, DND5e)])
  }

  /** What each of the three attacks reaches and deals. */
  lemma MixedAttacks(r2: int, r3: int)
    requires 12 <= r2 <= 14 && 1 <= r3 <= 2
    ensures var p, draws := MixedProfile(), [AttackDraw([20], [4]), AttackDraw([r2], [1]), AttackDraw([r3], [0])];
            && DrawsFit(p, draws) && Pairs(p) == 3
            && AttackOutcome(p, draws, 0) == CriticalHit && AttackDamage(p, draws, 0) == 4
            && AttackOutcome(p, draws, 1) == Hit && AttackDamage(p, draws, 1) == 1
            && AttackOutcome(p, draws, 2) == Miss && AttackDamage(p, draws, 2) == 0
  {
    SingleRoll(20, 20, 10, 20);
    SingleRoll(12, 14, 10, r2);
    SingleRoll(1, 2, 10, r3);
    SingleRoll(2, 2, 10, 4);
    SingleRoll(1, 1, 10, 1);
    SingleRoll(1, 1, 10, 0);
  }

  /** A three-attack turn of a crit for 4, a hit for 1 and a miss for 0. */
  lemma ThreeAttacks(p: AttackProfile, draws: seq<AttackDraw>)
    requires DrawsFit(p, draws) && Pairs(p) == 3
    requires AttackOutcome(p, draws, 0) == CriticalHit && AttackDamage(p, draws, 0) == 4
    requires AttackOutcome(p, draws, 1) == Hit && AttackDamage(p, draws, 1) == 1
    requires AttackOutcome(p, draws, 2) == Miss && AttackDamage(p, draws, 2) == 0
    ensures Outcomes(p, draws, 3) == [CriticalHit, Hit, Miss]
    ensures DamageUpTo(p, draws, 3) == 5
  {
    assert DamageUpTo(p, draws, 1) == 4;
    assert DamageUpTo(p, draws, 2) == 5;
  }
}
