# dpr_simulator in Dafny

A model of dpr_simulator, a damage-per-round simulator for tabletop role-playing combat. The simulator reads to-hit and damage rolls written in dice notation (`1d20+5`, `2d6D+7`, `1d6~12`). It rolls them against a range of target armour classes and reports, turn by turn, the number of critical hits, the number of hits and the damage dealt.

The repository holds several generations of the engine. This model covers all of them:

- **The current engine** (`RollCollections`, `StaticModifiers`, `AttackProfiles`). It has:
  - a roll collection, which is a list of dice plus a list of static modifiers under one rule set (D&D 5e or Pathfinder 2e);
  - a notation parser that reads dice per comma fragment and reads modifiers from the whole string;
  - the 5e to-hit rule, where a natural 20 is a critical hit;
  - the tiered Pathfinder rule, which starts from a tier set by how far the total beats the target and shifts it one step for each natural 20 or natural 1;
  - the table that says what a static modifier is worth under each hit outcome;
  - the per-turn accumulator, which pairs to-hit collections with damage collections.
- **The single-d20 attack profile** (`D20AttackProfiles`). Each damage element carries its own to-hit modifier. The damage of one attack is a roll and a modifier, combined by a per-ruleset table. A turn classifies PF2e attacks with the tiered rule as written; the turn functions also accept the corrected rule (see Findings), so that both turns can be stated and compared.
- **Three earlier notation parsers**:
  - `DiceContexts`: at most one collection per comma fragment, a fatal `NfS~F` form, and a leftmost `AA`/`A`/`D` reroll letter.
  - `DamageElements`: every `NdS` of the text, with 32-bit overflow reported as an error.
  - `Weapons`: one `NdS+M` split on `d` and `+`, plus a bounded damage sum.
- **The simulation driver** (`Driver`). It pads the two notation lists to a common length in place and builds one profile per armour class. It also collects each turn's counters into the columns of the results table.

The regular expressions of the source are written as scanners over the characters of the string (module `Notation`). A search tries positions from left to right. A digit run is always taken whole, as the leftmost-first, greedy regex engine does. Rust's `str::split` is written out as `Split`.

Randomness is replaced by inputs. Every die result, and every damage value a die reports under a hit outcome, is a parameter of the operation that would have drawn it.

## Model

| member | source | states |
|---|---|---|
| StaticModifiers.New | src/static_modifier.rs:18-23 | the modifier holds exactly the value and behaviour given |
| StaticModifiers.EvaluateResult | src/static_modifier.rs:40-55 | with no hit condition the result is the plain value. It is always 0, the value or twice the value. For a non-zero value it is doubled exactly when a CanCritical modifier meets a critical hit. OnMiss always gives the value, and any other non-zero modifier gives something else on a miss |
| StaticModifiers.CanCriticalTable | src/static_modifier.rs:147-169 | CanCritical: twice the value on a critical hit, the value on a hit, 0 on a miss |
| StaticModifiers.OnCriticalTable | src/static_modifier.rs:119-141 | OnCritical: the value on a critical hit, 0 on a hit or a miss |
| StaticModifiers.OnHitTable | src/static_modifier.rs:91-113 | OnHit: the value on a hit or a critical hit, never doubled, 0 on a miss |
| StaticModifiers.OutcomeMonotone | src/static_modifier.rs:42-51 | for a non-negative modifier, a better outcome never lowers the contribution, whatever the behaviour |
| StaticModifiers.UnconditionedTotal | src/roll_collection.rs:55 | summing every modifier with no hit condition gives the sum of their raw values |
| StaticModifiers.MissTotal | src/roll_collection.rs:324-328 | on a miss only the OnMiss modifiers contribute |
| StaticModifiers.HitTotal | src/roll_collection.rs:324-328 | on a hit every modifier contributes its value except the OnCritical ones |
| StaticModifiers.CriticalOverHit | src/roll_collection.rs:324-328 | over a hit, a critical hit adds the CanCritical values once more plus the OnCritical values |
| Combat.CountStep | src/attack_profile.rs:57-66 | a critical hit adds one crit and one hit, a hit adds one hit, and a miss adds nothing |
| Combat.CountsOrdered | src/attack_profile.rs:42-69 | for any outcomes, crits ≤ hits ≤ number of outcomes |
| Combat.SumAppend | src/damageelement.rs:82-89 | the running total over two lists of values joined end to end is the sum of their two totals |
| RollCollections.New | src/roll_collection.rs:29-39 | the collection holds exactly the dice, modifiers and rule set given |
| RollCollections.RerollAt | src/roll_collection.rs:160 | the optional reroll group of the dice pattern prefers `AA` to `A`, and stays inside the text |
| RollCollections.TokenDie | src/roll_collection.rs:178-209 | a `~F` that fits 32 bits makes the die Fatal with alternate maximum F, and the reroll group is then ignored. Otherwise AA, A and D give DoubleAdvantage, Advantage and Disadvantage, and anything else gives Standard. The size becomes the maximum and the minimum is the default |
| RollCollections.ParseDieElements | src/roll_collection.rs:156-211 | appends `count` copies of the die of the fragment's first dice match to the list, and nothing when there is no match |
| RollCollections.TokenModifiers | src/roll_collection.rs:242-250 | one modifier per signed token, in order, sign kept, never merged. The behaviour is CanCritical under PF2e and OnHit under DND5e |
| RollCollections.ParseStaticElements | src/roll_collection.rs:233-251 | appends the modifiers of every `+N`/`-N` of the text to the list |
| RollCollections.ParseUserInput | src/roll_collection.rs:262-273 | dice come from each comma fragment in turn, modifiers come from the whole string, and the rule set is kept |
| RollCollections.EvalAcRollDnd | src/roll_collection.rs:54-73 | the 5e rule: any d20 showing 20 is a critical hit whatever the target (later dice are not examined). Otherwise it is a hit exactly when modifiers plus dice reach the target |
| RollCollections.Classify | src/roll_collection.rs:121-125 | an adjusted tier above 1 is a critical hit, exactly 1 is a hit, and below 1 is a miss |
| RollCollections.EvalAcRollPathfinder | src/roll_collection.rs:88-126 | the tiered rule: the tier (2 when the total beats the target by ten, 1 when it reaches it, else 0), plus one per d20 showing 20 and minus one per d20 showing 1, classified |
| RollCollections.NaturalAdjustmentCounts | src/roll_collection.rs:99-104 | the tier shift is the number of natural 20s minus the number of natural 1s |
| RollCollections.AnyNat20Count | src/roll_collection.rs:61-63 | some d20 shows 20 exactly when the count of natural 20s is positive |
| RollCollections.RulesAgreeOnMiss | src/roll_collection.rs:54-126 | with no natural 1 or 20 the two rules agree on whether the attack misses, and 5e gives no critical hit |
| RollCollections.PathfinderNat20NeverMisses | src/roll_collection.rs:99-125 | under the tiered rule, more natural 20s than natural 1s never miss, whatever the target |
| RollCollections.PathfinderNat1NeverCrits | src/roll_collection.rs:99-125 | under the tiered rule, more natural 1s than natural 20s never crit, whatever the total |
| RollCollections.PathfinderBeatByTen | src/roll_collection.rs:109-125 | beating the target by ten is a critical hit without naturals, and a single natural 1 downgrades it to a hit |
| RollCollections.DndNat20Crits | src/roll_collection.rs:61-63 | under 5e a natural 20 is a critical hit against any target |
| RollCollections.TargetMonotone | src/roll_collection.rs:54-126 | under either rule, raising the target never improves the outcome |
| RollCollections.RollAgainstArmourClass | src/roll_collection.rs:293-298 | dispatches on the rule set alone: the 5e rule under DND5e, the tiered rule under PF2e |
| RollCollections.RollDamageResult | src/roll_collection.rs:318-331 | the dice's results plus the modifiers: on a miss only the OnMiss values; on a hit every value except the OnCritical ones; on a critical hit every value, the CanCritical ones twice |
| RollCollections.DiceNotationRoundTrip | src/roll_collection.rs:159-185 | the dice pattern reads back every token it can write, when the token is followed by nothing or by a signed modifier |
| RollCollections.NotationDiceRoundTrip | src/roll_collection.rs:262-266 | parsing a written token followed by written modifiers gives `count` copies of the token's die |
| RollCollections.NotationModifiersRoundTrip | src/roll_collection.rs:268-270 | ... and one modifier per written value, in order, with the rule set's behaviour |
| RollCollections.FragmentsNotation | src/roll_collection.rs:265-267 | comma-free fragments joined with commas parse into the fragments' dice, one fragment after another |
| RollCollections.FragmentsDiceAppend | src/roll_collection.rs:265-267 | the dice of two fragment lists are those of the first list followed by those of the second |
| RollCollections.SingleFragment | src/roll_collection.rs:265-267 | a notation without commas is one fragment |
| RollCollectionExamples.ParseUserInputDiceExample | src/roll_collection.rs:637-665 | `1d4,2d6D+7,1d6~12` gives a d4, two d6 with disadvantage and a fatal d6 with alternate maximum 12 |
| RollCollectionExamples.ParseUserInputModifiersExample | src/roll_collection.rs:637-665 | ... and a single +7 modifier that applies on a hit |
| RollCollectionExamples.SingleFragmentExample | src/roll_collection.rs:485-491 | `1d8+5` gives one d8 |
| RollCollectionExamples.MultipleFragmentExample | src/roll_collection.rs:494-503 | `2d8+5` gives two d8 |
| RollCollectionExamples.MultidigitFragmentExample | src/roll_collection.rs:506-517 | `1d20` and `1d100+5` give a d20 and a d100 |
| RollCollectionExamples.RerollFragmentExamples | src/roll_collection.rs:520-553 | `A`, `AA` and `D` give Advantage, DoubleAdvantage and Disadvantage |
| RollCollectionExamples.InvalidGroupFragmentExample | src/roll_collection.rs:556-562 | `1d8z+5` gives a Standard d8 |
| RollCollectionExamples.FatalFragmentExamples | src/roll_collection.rs:565-587 | `1d6~10` and `1d6AA~10` both give a Fatal d6 with alternate maximum 10 |
| RollCollectionExamples.NoDieFragmentExample | src/roll_collection.rs:476-482 | `+5` gives no dice |
| RollCollectionExamples.HitRuleExamples | src/roll_collection.rs:353-438 | the documented 5e and tiered outcomes for every roll the documented dice allow |
| RollCollectionExamples.ArmourClassExamples | src/roll_collection.rs:670-692 | routed by rule set, a 5e natural 20 is a critical hit against armour class 100, and a PF2e roll of 14 or 15 a critical hit against armour class 2 |
| RollCollectionExamples.DamageExamples | src/roll_collection.rs:700-753 | an empty collection on a miss deals 0; dice reporting 2 and 3 with +1 and +2 deal 8 on a hit; 13 and 16 on the critical-hit cases |
| AttackProfiles.New | src/attack_profile.rs:11-21 | the profile holds exactly the target, hit list and damage list given |
| AttackProfiles.Pairs | src/attack_profile.rs:49-53 | the pairs are zipped: the number of attacks is the length of the shorter list |
| AttackProfiles.Outcomes | src/attack_profile.rs:54 | each attack's outcome is its own to-hit collection against the profile's target |
| AttackProfiles.RollTurn | src/attack_profile.rs:42-69 | crits and hits count the outcomes of the processed pairs, and damage is every pair's damage result under its own outcome, misses included |
| AttackProfiles.RollAttack | src/attack_profile.rs:54-66 | one pair: its damage is added, and the counters advance by its outcome |
| AttackProfiles.TurnCountsBounded | src/attack_profile.rs:42-69 | 0 ≤ crits ≤ hits ≤ number of pairs |
| AttackProfiles.MissedTurn | src/attack_profile.rs:54-66 | a turn of misses counts no hit and no crit, and deals only what the dice report plus the OnMiss modifiers |
| AttackProfiles.ExtraCollectionsIgnored | src/attack_profile.rs:49-53 | extra to-hit collections beyond the damage list change neither outcomes nor damage |
| AttackProfiles.ExtraDamageCollectionsIgnored | src/attack_profile.rs:49-53 | extra damage collections beyond the to-hit list change neither outcomes nor damage |
| AttackProfileExamples.MixedTurn | src/attack_profile.rs:201-217 | a crit, a hit and a miss at armour class 10 give one crit, two hits and damage 5 |
| AttackProfileExamples.AllMissTurn | src/attack_profile.rs:179-192 | two attacks that cannot reach armour class 10 give no crit, no hit and no damage |
| D20AttackProfiles.Roll5eAttack | src/attackprofile.rs:24-42 | a natural 20 is a critical hit regardless of modifier and target; otherwise a hit exactly when roll plus modifier reach the target |
| D20AttackProfiles.AdjustedState | src/attackprofile.rs:52-73 | the state ranges over -1..3, and is 3 exactly for a natural 20 that beats the target by ten |
| D20AttackProfiles.Roll2eAttack | src/attackprofile.rs:44-80 | as written: state 2 is a critical hit, state 1 a hit, and every other state, 3 included, a miss |
| D20AttackProfiles.Roll2eAttackCorrected | src/attackprofile.rs:44-80 | as intended: every state above 1 is a critical hit |
| D20AttackProfiles.Roll2eAttackNat20Counterexample | src/attackprofile.rs:75-79 | roll 20, modifier 10, target 1: a miss as written, a critical hit as intended |
| D20AttackProfiles.Roll2eAttackDiffers | src/attackprofile.rs:75-79 | the two versions differ exactly on a natural 20 that beats the target by ten |
| D20AttackProfiles.Roll2eAttackCorrectedMonotone | src/attackprofile.rs:52-79 | as intended, a larger modifier never gives a worse outcome |
| D20AttackProfiles.Roll5eAttackMatchesEngine | src/attackprofile.rs:24-42 | the 5e rule on one d20 agrees with the current engine's 5e rule |
| D20AttackProfiles.Roll2eAttackCorrectedMatchesEngine | src/attackprofile.rs:44-80 | the corrected tiered rule on one d20 agrees with the current engine's tiered rule |
| D20AttackProfiles.TrackHits | src/attackprofile.rs:82-93 | a critical hit adds one to both counters, a hit one to hits, and a miss nothing |
| D20AttackProfiles.DetermineDamage | src/attackprofile.rs:95-104 | PF2e: roll plus modifier acting as one CanCritical modifier. 5e: the roll as a CanCritical modifier plus the modifier as an OnHit one |
| D20AttackProfiles.CriticalDamage | src/attackprofile.rs:95-104 | a PF2e crit doubles a hit, a 5e crit adds one more roll to a hit, a miss is 0, and a hit is the same under both |
| D20AttackProfiles.DamageMonotone | src/attackprofile.rs:95-104 | with non-negative roll and modifier, a better outcome never deals less |
| D20AttackProfiles.TurnOutcomes | src/attackprofile.rs:106-144 | each element's outcome is its own attack under the profile's rule set: the 5e rule, or the tiered rule as written (`AsWritten`) or corrected (`Corrected`) |
| D20AttackProfiles.RollTurn | src/attackprofile.rs:106-144 | crits and hits count the elements' outcomes under the tiered rule as written, as `roll_turn` calls `roll_2e_attack`; damage is determined for every element |
| D20AttackProfiles.RollElement | src/attackprofile.rs:116-135 | one element's outcome (the 5e rule, or `Roll2eAttack` as written) and its damage under that outcome |
| D20AttackProfiles.TurnCountsBounded | src/attackprofile.rs:106-144 | under either tiered rule, crits ≤ hits ≤ number of damage elements |
| D20AttackProfiles.MissesAddNothing | src/attackprofile.rs:106-144 | under either tiered rule, damage is determined for every element, but a turn of misses deals 0 and counts no hit |
| D20AttackProfiles.TurnDamageBounded | src/attackprofile.rs:95-144 | under either tiered rule, with non-negative draws, a turn deals between 0 and twice what its elements drew |
| D20AttackProfiles.TurnRulesAgree | src/attackprofile.rs:127-132 | the turn as written and the corrected turn agree on outcomes and damage unless some PF2e element rolls a natural 20 that beats the target by ten |
| D20AttackProfileExamples.Roll5eAttackExamples | src/attackprofile.rs:156-186 | the documented 5e miss, hit and critical hit |
| D20AttackProfileExamples.Roll2eAttackExamples | src/attackprofile.rs:193-267 | the documented tiered outcomes, including the natural 20 and natural 1 shifts |
| D20AttackProfileExamples.TrackHitsExamples | src/attackprofile.rs:272-305 | from zero, a crit gives (1, 1), a hit (0, 1) and a miss (0, 0) |
| D20AttackProfileExamples.DetermineDamageExamples | src/attackprofile.rs:308-345 | roll 1, modifier 1: 3 on a 5e crit, 4 on a PF2e crit, 2 on a hit, 0 on a miss |
| D20AttackProfileExamples.RollTurnExample | src/attackprofile.rs:348-361 | +10 against armour class 10 always hits, and a d6 plus 1 always deals damage |
| D20AttackProfileExamples.RollTurnNat20Example | src/attackprofile.rs:127-132 | PF2e, +10 against armour class 1, a natural 20, damage 3 plus 2: as written the turn is (0, 0, 0); corrected it is (1, 1, 10) |
| DiceContexts.New | src/dicecontext.rs:15-20 | the context holds exactly the collections and modifier given |
| DiceContexts.ParseRegularDie | src/dicecontext.rs:22-40 | None exactly when no position starts an `NdS`; otherwise count and size of the first |
| DiceContexts.RegularDieRoundTrip | src/dicecontext.rs:22-40 | a written `NdS` followed by a non-digit reads back as (N, S) |
| DiceContexts.NumberAt | src/dicecontext.rs:47 | the value of the digit run at a position, and where it ends |
| DiceContexts.FatalPos | src/dicecontext.rs:42-62 | the leftmost start of an `NfS~F` match |
| DiceContexts.ParseFatalDie | src/dicecontext.rs:42-62 | None exactly when no position starts an `NfS~F`; otherwise the three values of the match at the leftmost such position |
| DiceContexts.FatalDieRoundTrip | src/dicecontext.rs:42-62 | a written `NfS~F` followed by a non-digit reads back as (N, S, F) |
| DiceContexts.ParseStaticElements | src/dicecontext.rs:64-81 | the signed sum of the `+N`/`-N` tokens; 0 for a text without a sign |
| DiceContexts.StaticMatchesModifiers | src/dicecontext.rs:64-81 | the static modifier is the total of the modifiers the current parser reads from the same text |
| DiceContexts.StaticRoundTrip | src/dicecontext.rs:64-81 | written modifiers read back as their sum |
| DiceContexts.ParseRerollElements | src/dicecontext.rs:83-100 | Standard exactly when the text holds no `A`/`D`; otherwise the mode its first such letter selects, with `AA` preferred to `A` |
| DiceContexts.RerollFrom | src/dicecontext.rs:83-100 | Standard exactly when no `A`/`D` occurs; otherwise the mode of the leftmost letter, with `AA` preferred to `A` |
| DiceContexts.FragmentCollection | src/dicecontext.rs:111-128 | a fragment yields a collection exactly when it holds a regular or a fatal die. The regular die takes priority, and the reroll mode is the fragment's |
| DiceContexts.FragmentsCollections | src/dicecontext.rs:111-128 | at most one collection per fragment |
| DiceContexts.ParseDiceString | src/dicecontext.rs:102-131 | the collections of the comma fragments in order, and the static modifier of the whole string |
| DiceContexts.CollectionsBound | src/dicecontext.rs:111 | at most one collection more than there are commas |
| DiceContexts.FragmentsCollectionsAppend | src/dicecontext.rs:111-128 | collections keep fragment order |
| DiceContextExamples.RegularDieExamples | src/dicecontext.rs:159-174 | `1d8+5` → (1, 8); `+5` → None |
| DiceContextExamples.StaticExamples | src/dicecontext.rs:177-198 | `1d8+5` → 5, `1d8-5` → -5, `1d8+5-3` → 2 |
| DiceContextExamples.RerollExamples | src/dicecontext.rs:201-256 | leftmost letter wins, `AA` over `A`, Standard without letters |
| DiceContextExamples.ParseDiceStringStandardExample | src/dicecontext.rs:259-275 | `1d4,D2d6,3d6A,4d6AA+7` gives four collections (Standard, Disadvantage, Advantage, DoubleAdvantage) and modifier 7 |
| DiceContextExamples.ParseDiceStringFatalExample | src/dicecontext.rs:278-295 | `1d4,2f6~8+7` gives a d4 and two d6 fatal to 8, with modifier 7 |
| DamageElements.NewDie | src/damageelement.rs:17-23 | the die holds exactly the count, minimum and maximum given |
| DamageElements.New | src/damageelement.rs:34-39 | the element holds exactly the dice and static values given |
| DamageElements.SpanDie | src/damageelement.rs:52-67 | a match reads when count and size fit 32 bits, and then gives a die with minimum 1; otherwise the error names the first token that does not fit |
| DamageElements.FirstFailure | src/damageelement.rs:50-69 | the index of the first match that does not read |
| DamageElements.SpansDice | src/damageelement.rs:50-70 | the dice of all matches in order, or the first failing match's error |
| DamageElements.ParseDieElements | src/damageelement.rs:41-71 | reads every `NdS` match in order and stops at the first count or size that does not fit 32 bits |
| DamageElements.DieElementsSpec | src/damageelement.rs:41-71 | succeeds exactly when every count and size fits 32 bits, and then gives one die per match, in order, each with minimum 1 |
| DamageElements.SpansDiceSpec | src/damageelement.rs:50-70 | the same for any list of matches |
| DamageElements.FirstDieMatchesRegular | src/damageelement.rs:41-71 | the first die agrees with the dice-context parser's regular die, and there is no die exactly when that parser finds none |
| DamageElements.TokenValues | src/damageelement.rs:80-88 | each static token counts its value when it fits 32 bits, else 0 |
| DamageElements.ParseStaticElements | src/damageelement.rs:73-92 | never fails; the sum of the contributions of every `+N`/`-N` |
| DamageElements.StaticAgreesWithContext | src/damageelement.rs:73-92 | when every token fits, the total equals the dice-context parser's |
| DamageElements.StaticRoundTrip | src/damageelement.rs:73-92 | written modifiers read back as the sum of those that fit 32 bits |
| DamageElementExamples.DieElementsSingle | src/damageelement.rs:169-177 | `1d8+5` gives one die of count 1, min 1, max 8 |
| DamageElementExamples.DieElementsMultiple | src/damageelement.rs:180-188 | `1d6,1d8+5` gives a d6 then a d8 |
| DamageElementExamples.StaticPositive | src/damageelement.rs:191-196 | `1d8+5` → 5 |
| DamageElementExamples.StaticNegative | src/damageelement.rs:199-204 | `1d8-5` → -5 |
| DamageElementExamples.StaticMixed | src/damageelement.rs:207-212 | `1d8+5-3` → 2 |
| DamageElementExamples.StaticOverflowIgnored | src/damageelement.rs:84-87 | a token beyond 32 bits adds nothing |
| DamageElementExamples.EmptyExamples | src/damageelement.rs:50-82 | text with no dice and no signs gives no dice and a total of 0 |
| Weapons.New | src/weapon.rs:16-22 | stores die size plus one as the exclusive maximum; count and modifier unchanged |
| Weapons.CreateEmpty | src/weapon.rs:24-29 | no dice, maximum 1, modifier 0 |
| Weapons.ParseI32 | src/weapon.rs:49-51 | a token reads only when it is a signed token or an unsigned digit string, and then to its value when that fits 32 bits; any such token whose value fits does read |
| Weapons.ParseIntStr | src/weapon.rs:49-51 | a written 32-bit integer reads back as itself |
| Weapons.FromNotationString | src/weapon.rs:31-54 | succeeds exactly when splitting on `d` and `+` gives three tokens that each read as an integer, and then builds the weapon from them; every failure is the same error quoting the input |
| Weapons.FromNotationRoundTrip | src/weapon.rs:31-54 | a written `NdS+M` reads back as its weapon |
| Weapons.RollDamage | src/weapon.rs:56-64 | the sum of the draws plus the modifier. It lies between n + modifier and n·(maximum − 1) + modifier, and is the modifier alone when the die count is not positive |
| Weapons.SumBounds | src/weapon.rs:59-63 | a sum of n values within [lo, hi] lies within [n·lo, n·hi] |
| WeaponExamples.CreateEmptyExample | src/weapon.rs:80-87 | the empty weapon is (0, 1, 0) |
| WeaponExamples.FromNotationExample | src/weapon.rs:90-101 | `1d6+3` → (1, 7, 3) |
| WeaponExamples.FromNotationFailures | src/weapon.rs:104-117 | `16+3` and `1d63` fail |
| WeaponExamples.RollDamageExample | src/weapon.rs:120-134 | one d8 with no modifier deals 1 to 8 |
| Driver.NotationList.constructor | src/lib.rs:35 | a list holding the given strings |
| Driver.ResizeVector | src/lib.rs:35-40 | appends exactly `iterations` copies of the value and keeps the existing entries |
| Driver.ResizeKeepsPrefix | src/lib.rs:35-40 | the result has the original prefix and only the new value after it |
| Driver.Equalised | src/lib.rs:132-150 | fails exactly when lengths differ and the shorter is empty. Otherwise both have the larger length, the longer is untouched, the shorter keeps its prefix, and every padded entry is its original last entry |
| Driver.EqualiseInputVectors | src/lib.rs:132-150 | pads in place as `Equalised` says, or reports the `last().unwrap()` panic and leaves both lists as they were |
| Driver.EqualisedIdempotent | src/lib.rs:136-138 | padding equal-length lists changes nothing |
| Driver.EqualisedSymmetric | src/lib.rs:139-149 | padding treats its two arguments alike |
| Driver.Contexts | src/lib.rs:50-58 | each notation string parsed into its dice context, in order |
| Driver.ProduceAttackProfile | src/lib.rs:42-61 | a profile with the given armour class and rule set over the parsed hit and weapon contexts |
| Driver.MapProfilesToAc | src/lib.rs:63-77 | one profile per armour class, in input order |
| Driver.ProfilesShareContexts | src/lib.rs:63-77 | profiles differ only in their armour class |
| Driver.IterationColumn | src/lib.rs:88-89 | the row numbers 1..n |
| Driver.ResultsToFrame | src/lib.rs:79-101 | built exactly when the counter columns have equal length: Iteration is 1..n, Target_AC the armour class n times, and the counters are unchanged |
| Driver.EvaluateAttackProfile | src/lib.rs:103-126 | records exactly `number_turns` turns (none when not positive), in round order, with row numbers and armour class |
| DriverExamples.ResizeVectorExamples | src/lib.rs:253-272 | `a, b, c` padded by two `d` gives `a, b, c, d, d`; padded by none it is unchanged |
| DriverExamples.EqualisedExamples | src/lib.rs:400-445 | the documented paddings of the first list, of the second list, and of equal lengths |
| DriverExamples.MapProfilesExample | src/lib.rs:323-350 | two armour classes give two profiles over the same notation |
| DriverExamples.ResultsToFrameExample | src/lib.rs:353-372 | five rows at armour class 5 |
| DriverExamples.EvaluateAttackProfileExample | src/lib.rs:375-397 | five turns of one hit for 2 at armour class 1 give rows 1..5, armour class 1, one hit, no crit and damage 2 |
| Notation.RunEnd | src/roll_collection.rs:160 | the end of the maximal digit run, so a digit run is taken whole |
| Notation.NatStr | src/roll_collection.rs:160 | a rendered number is digits that read back as the number |
| Notation.PlainDieAt | src/roll_collection.rs:160 | an `NdS` match at a position, with the size digits taken whole |
| Notation.FirstPlainDie | src/roll_collection.rs:165 | the leftmost `NdS` match: no earlier position matches |
| Notation.PlainDieSpans | src/damageelement.rs:43-46 | every span is an `NdS` match from `p` on, and the spans are in order and do not overlap |
| Notation.PlainDieSpansComplete | src/damageelement.rs:43-46 | no match is skipped: every position from `p` on where an `NdS` starts lies inside a span |
| Notation.SignedTokens | src/roll_collection.rs:240-242 | every successive `[+-]\d+` match is a signed token |
| Notation.SignedValues | src/dicecontext.rs:71-77 | the value of each signed token, in order |
| Notation.SignedStr | src/roll_collection.rs:240 | a rendered modifier is a signed token of that value |
| Notation.ModifiersTextTokens | src/roll_collection.rs:240-242 | written modifiers read back as one token per value, in order |
| Notation.SignedTokensShift | src/roll_collection.rs:242 | tokens are found the same way in a suffix |
| Notation.SignFreePrefix | src/roll_collection.rs:242 | text without signs contributes no token |
| Notation.Split | src/roll_collection.rs:264 | at least one piece, and no piece holds a separator |
| Notation.SplitLength | src/weapon.rs:37-38 | one piece more than there are separators |
| Notation.SplitJoin | src/roll_collection.rs:264 | splitting undoes joining when no piece holds the separator |
| Notation.JoinSplit | src/roll_collection.rs:264 | joining undoes splitting |

## Left out

- Random number generation. Every die draw, and every damage value a die reports under a hit outcome, is an input; a bound on it appears as a precondition where a contract needs one.
- `src/dice.rs` beyond the bounds of a die. The `Dice`/`DiceBuilder` machinery, `evaluate_result` on a die (advantage, fatal, critical doubling) and `DiceCollection`/`set_fatal` are not part of this model, so a die is a record (minimum, maximum, behaviour, alternate maximum) and its results are given.
- RollCollections.DEFAULT_ROLL_MIN: the parser sets only the maximum and the behaviour, so a parsed die's minimum is the builder's default, which is taken to be 1.
- `DiceContext::roll` and `roll_critical`, and `DamageElement::roll_damage`, `roll_damage_crit` and `from_notation_string`: they draw from the random number generator or discard what they parse, so they add nothing to model.
- polars `DataFrame` construction, `concat`, `process_simulation`, `write_to_parquet` and `summarise_results`: library calls and file I/O. Only the column values are modelled (`Driver.ResultsToFrame`).
- `src/main.rs` and `src/turnsimulation.rs`: entry-point wiring and a loop that discards its results.
- Weapons.ParseI32: `dpr_simulator::convert_value` is not part of this model. It is taken to read an optionally signed decimal integer within 32 bits.
- 32-bit arithmetic. Sums, products and `die_size + 1` use unbounded integers, so overflow (a panic or wrap-around in Rust) is not modelled. This affects `Weapons.New`, `Weapons.RollDamage`, `RollCollections.EvalAcRollDnd`, `RollCollections.EvalAcRollPathfinder`, `StaticModifiers.EvaluateResult` and every damage sum.
- DiceContexts.ParseRegularDie: the source unwraps a parse of each number as a 32-bit integer; the panic for a number beyond 32 bits is not modelled, and the value is read as a natural number.
- DiceContexts.ParseFatalDie: the same panic is not modelled.
- RollCollections.TokenDie: the unwrapped 32-bit parse of count and size is not modelled, and both are read as natural numbers. A fatal size beyond 32 bits counts as absent, as the source's `.ok()` makes it.
- RollCollections.TokenModifiers: the source unwraps a 32-bit parse of each `+N`/`-N` token. The panic for a modifier beyond 32 bits is not modelled, and the token keeps its value.
- DiceContexts.ParseStaticElements: the same unwrap applies to each static token, and the same panic is not modelled.
- `\d` is taken to mean the ASCII digits `0`–`9`; Unicode digits are not modelled.
- D20AttackProfiles: src/attackprofile.rs refers to `Ruleset::DND53`, a `to_hit` field, a `roll_damage` method of `DamageElement` and a three-argument constructor, none of which src/damageelement.rs or src/lib.rs define. The profile is therefore modelled on its own: the to-hit modifier of each element, and each element's damage roll and modifier, are inputs.
- src/lib.rs calls a four-argument `AttackProfile::new` that matches neither profile file. `Driver.ProduceAttackProfile` therefore builds a record of the armour class, the parsed contexts and the rule set, and `Driver.EvaluateAttackProfile` receives each turn's counters as input.
- Weapons.RollDamage: a weapon with a positive die count and a maximum of 1 or less (`1d0+3`, say) makes `gen_range` panic on an empty range. The precondition on the draws excludes that case, and the panic is not modelled.
- Two Pathfinder tests in src/roll_collection.rs (lines 442-469) are marked ignored. They are not reproduced.

## Findings

| source | as written | input that shows it | evidently intended | confidence | as-written member | corrected member |
|---|---|---|---|---|---|---|
| src/attackprofile.rs:75-79 | state 2 is a critical hit, state 1 a hit, any other state a miss, so state 3 (a natural 20 on a roll that already beat the target by ten) is a miss | d20 roll 20, to-hit modifier 10, target armour class 1 | any state above 1 is a critical hit, as the current engine's `cmp(&1)` classification does (src/roll_collection.rs:121-125) | high; not executed | D20AttackProfiles.Roll2eAttack | D20AttackProfiles.Roll2eAttackCorrected |
