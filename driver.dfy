/** The simulation driver: padding the two notation lists to a common
    length, building one attack profile per armour class from the parsed
    notation, and collecting the per-turn counters into the rows of the
    results table.

    The turns themselves are inputs: `EvaluateAttackProfile` receives what
    each turn reported (crits, hits, damage) in round order. */
module Driver {
  import opened Combat
  import opened Notation
  import opened DiceContexts

  /** A growable list of notation strings, updated in place. */
  class NotationList {
    var items: seq<string>

    constructor(items: seq<string>)
      ensures this.items == items
    {
      this.items := items;
    }
  }

  /** Appends `iterations` copies of `newValue` to `v`. */
  method ResizeVector(v: NotationList, newValue: string, iterations: nat)
    modifies v
    ensures v.items == old(v.items) + Repeat(newValue, iterations)
  {
    v.items := v.items + Repeat(newValue, iterations);
  }

  /** Appending keeps the original entries and adds exactly `iterations`
      copies of the new value after them. */
  lemma ResizeKeepsPrefix(items: seq<string>, newValue: string, iterations: nat)
    ensures |items + Repeat(newValue, iterations)| == |items| + iterations
    ensures (items + Repeat(newValue, iterations))[..|items|] == items
    ensures forall i :: |items| <= i < |items| + iterations ==> (items + Repeat(newValue, iterations))[i] == newValue
  {
    assert (items + Repeat(newValue, iterations))[..|items|] == items;
  }

  function Max(x: int, y: int): int
  {
    if x >= y then x else y
  }

  /** The two lists after padding, or None when the shorter one is empty
      (reading its last entry fails). */
  function Equalised(a: seq<string>, b: seq<string>): (r: Option<(seq<string>, seq<string>)>)
    ensures r.None? <==> |a| != |b| && (|a| == 0 || |b| == 0)
    ensures r.Some? ==> |r.value.0| == Max(|a|, |b|) && |r.value.1| == Max(|a|, |b|)
    ensures r.Some? ==> r.value.0[..|a|] == a && r.value.1[..|b|] == b
    ensures r.Some? && |a| >= |b| ==> r.value.0 == a
    ensures r.Some? && |b| >= |a| ==> r.value.1 == b
    ensures r.Some? ==> forall i :: |a| <= i < |r.value.0| ==> r.value.0[i] == a[|a| - 1]
    ensures r.Some? ==> forall i :: |b| <= i < |r.value.1| ==> r.value.1[i] == b[|b| - 1]
  {
    if |a| == |b| then Some((a, b))
    else if |a| > |b| then
      if |b| == 0 then None else Some((a, b + Repeat(b[|b| - 1], |a| - |b|)))
    else
      if |a| == 0 then None else Some((a + Repeat(a[|a| - 1], |b| - |a|), b))
  }

  /** Pads the shorter of two lists with copies of its own last entry until
      both are as long as the longer one. Reports a panic, leaving both lists
      as they were, when the shorter list is empty. */
  method EqualiseInputVectors(first: NotationList, second: NotationList) returns (panicked: bool)
    requires first != second
    modifies first, second
    ensures panicked <==> Equalised(old(first.items), old(second.items)).None?
    ensures panicked ==> first.items == old(first.items) && second.items == old(second.items)
    ensures !panicked ==> (first.items, second.items) == Equalised(old(first.items), old(second.items)).value
  {
    panicked := false;
    if |first.items| == |second.items| {
    } else if |first.items| > |second.items| {
      var lengthDiff := |first.items| - |second.items|;
      if |second.items| == 0 {
        panicked := true;
        return;
      }
      var lastValue := second.items[|second.items| - 1];
      ResizeVector(second, lastValue, lengthDiff);
    } else {
      var lengthDiff := |second.items| - |first.items|;
      if |first.items| == 0 {
        panicked := true;
        return;
      }
      var lastValue := first.items[|first.items| - 1];
      ResizeVector(first, lastValue, lengthDiff);
    }
  }

  /** Padding is idempotent: equalised lists are left alone. */
  lemma EqualisedIdempotent(a: seq<string>, b: seq<string>)
    requires Equalised(a, b).Some?
    ensures Equalised(Equalised(a, b).value.0, Equalised(a, b).value.1) == Equalised(a, b)
  {
  }

  /** Padding treats its two arguments alike. */
  lemma EqualisedSymmetric(a: seq<string>, b: seq<string>)
    ensures Equalised(b, a).None? <==> Equalised(a, b).None?
    ensures Equalised(a, b).Some? ==> Equalised(b, a).value == (Equalised(a, b).value.1, Equalised(a, b).value.0)
  {
  }

  /** A profile of the driver: an armour class, the parsed to-hit and weapon
      contexts, and the rule family. */
  datatype SimulationProfile = SimulationProfile(targetAc: int, hitContext: seq<DiceContext>, weaponContext: seq<DiceContext>, ruleset: Ruleset)

  /** Each notation string parsed into its dice context, in order. */
  function Contexts(details: seq<string>): (cs: seq<DiceContext>)
    ensures |cs| == |details|
    ensures forall i :: 0 <= i < |details| ==>
              cs[i].dice == NotationCollections(details[i]) && cs[i].staticModifier == ParseStaticElements(details[i])
  {
    seq(|details|, i requires 0 <= i < |details| => DiceContext(NotationCollections(details[i]), ParseStaticElements(details[i])))
  }

  /** The profile for one armour class. */
  function ProduceAttackProfile(targetAc: int, hitDetails: seq<string>, weaponDetails: seq<string>, ruleset: Ruleset): (p: SimulationProfile)
    ensures p.targetAc == targetAc && p.ruleset == ruleset
    ensures |p.hitContext| == |hitDetails| && |p.weaponContext| == |weaponDetails|
    ensures forall i :: 0 <= i < |hitDetails| ==>
              p.hitContext[i].dice == NotationCollections(hitDetails[i]) && p.hitContext[i].staticModifier == ParseStaticElements(hitDetails[i])
    ensures forall i :: 0 <= i < |weaponDetails| ==>
              p.weaponContext[i].dice == NotationCollections(weaponDetails[i]) && p.weaponContext[i].staticModifier == ParseStaticElements(weaponDetails[i])
  {
    SimulationProfile(targetAc, Contexts(hitDetails), Contexts(weaponDetails), ruleset)
  }

  /** One profile per armour class, in the order given, all built from the
      same notation lists. */
  function MapProfilesToAc(acTargets: seq<int>, hitDetails: seq<string>, weaponDetails: seq<string>, ruleset: Ruleset): (ps: seq<SimulationProfile>)
    ensures |ps| == |acTargets|
    ensures forall i :: 0 <= i < |acTargets| ==> ps[i] == ProduceAttackProfile(acTargets[i], hitDetails, weaponDetails, ruleset)
  {
    if |acTargets| == 0 then []
    else MapProfilesToAc(acTargets[..|acTargets| - 1], hitDetails, weaponDetails, ruleset)
         + [ProduceAttackProfile(acTargets[|acTargets| - 1], hitDetails, weaponDetails, ruleset)]
  }

  /** Profiles differ only in their armour class. */
  lemma ProfilesShareContexts(acTargets: seq<int>, hitDetails: seq<string>, weaponDetails: seq<string>, ruleset: Ruleset, i: nat, j: nat)
    requires i < |acTargets| && j < |acTargets|
    ensures var ps := MapProfilesToAc(acTargets, hitDetails, weaponDetails, ruleset);
            ps[i].hitContext == ps[j].hitContext && ps[i].weaponContext == ps[j].weaponContext
            && (acTargets[i] == acTargets[j] ==> ps[i] == ps[j])
  {
  }

  /** The rows of the results table, one column per field. */
  datatype Frame = Frame(iteration: seq<int>, targetAc: seq<int>, hits: seq<int>, crits: seq<int>, damage: seq<int>)

  /** The row numbers 1..n. */
  function IterationColumn(n: nat): (r: seq<int>)
    ensures |r| == n
    ensures forall i :: 0 <= i < n ==> r[i] == i + 1
  {
    if n == 0 then [] else IterationColumn(n - 1) + [n]
  }

  /** The table for one armour class, or None when the counter columns do
      not all have the same length (building the table fails). */
  function ResultsToFrame(acValue: int, crits: seq<int>, hits: seq<int>, damage: seq<int>): (r: Option<Frame>)
    ensures r.Some? <==> |hits| == |crits| && |damage| == |crits|
    ensures r.Some? ==> |r.value.iteration| == |crits| && |r.value.targetAc| == |crits|
    ensures r.Some? ==> forall i :: 0 <= i < |crits| ==> r.value.iteration[i] == i + 1 && r.value.targetAc[i] == acValue
    ensures r.Some? ==> r.value.hits == hits && r.value.crits == crits && r.value.damage == damage
  {
    var iterations := IterationColumn(|crits|);
    var acs := Repeat(acValue, |crits|);
    if |hits| == |crits| && |damage| == |crits| then Some(Frame(iterations, acs, hits, crits, damage))
    else None
  }

  /** What one turn reported. */
  datatype TurnCounts = TurnCounts(crits: int, hits: int, damage: int)

  /** Plays `numberTurns` turns (none when it is not positive), recording
      each turn's counters in round order, and tabulates them against the
      profile's armour class. */
  method EvaluateAttackProfile(profile: SimulationProfile, numberTurns: int, turns: seq<TurnCounts>) returns (frame: Frame)
    requires numberTurns <= |turns|
    ensures var n := Max(numberTurns, 0);
            |frame.crits| == n && |frame.hits| == n && |frame.damage| == n
            && |frame.iteration| == n && |frame.targetAc| == n
            && forall i :: 0 <= i < n ==>
                 frame.crits[i] == turns[i].crits && frame.hits[i] == turns[i].hits && frame.damage[i] == turns[i].damage
                 && frame.iteration[i] == i + 1 && frame.targetAc[i] == profile.targetAc
  {
    var critCounter: seq<int> := [];
    var hitCounter: seq<int> := [];
    var damageCounter: seq<int> := [];
    var t := 0;
    while t < numberTurns
      invariant 0 <= t <= Max(numberTurns, 0)
      invariant |critCounter| == t && |hitCounter| == t && |damageCounter| == t
      invariant forall i :: 0 <= i < t ==>
                  critCounter[i] == turns[i].crits && hitCounter[i] == turns[i].hits && damageCounter[i] == turns[i].damage
    {
      var turn := turns[t];
      critCounter := critCounter + [turn.crits];
      hitCounter := hitCounter + [turn.hits];
      damageCounter := damageCounter + [turn.damage];
      t := t + 1;
    }
    var table := ResultsToFrame(profile.targetAc, critCounter, hitCounter, damageCounter);
    frame := table.value;
  }
}

/** The documented cases of the driver. */
module DriverExamples {
  import opened Combat
  import opened DiceContexts
  import opened Driver

  /** Resizing `a, b, c` by two copies of "d", and by none. */
  method ResizeVectorExamples() returns (padded: seq<string>, kept: seq<string>)
    ensures padded == ["a", "b", "c", "d", "d"]
    ensures kept == ["a", "b", "c"]
  {
    var v := new NotationList(["a", "b", "c"]);
    ResizeVector(v, "d", 2);
    padded := v.items;
    var w := new NotationList(["a", "b", "c"]);
    ResizeVector(w, "d", 0);
    kept := w.items;
  }

  /** The shorter first list is padded; the shorter second list is padded;
      equal lengths change nothing. */
  lemma EqualisedExamples()
    ensures Equalised(["a", "b"], ["A", "B", "C"]) == Some((["a", "b", "b"], ["A", "B", "C"]))
    ensures Equalised(["a", "b", "c", "d", "e"], ["A", "B", "C"]) == Some((["a", "b", "c", "d", "e"], ["A", "B", "C", "C", "C"]))
    ensures Equalised(["a", "b", "c"], ["A", "B", "C"]) == Some((["a", "b", "c"], ["A", "B", "C"]))
    ensures Equalised([], ["A"]).None?
  {
    assert Repeat("b", 1) == ["b"];
    assert ["a", "b"] + ["b"] == ["a", "b", "b"];
    assert Repeat("C", 2) == ["C", "C"];
    assert ["A", "B", "C"] + ["C", "C"] == ["A", "B", "C", "C", "C"];
  }

  /** Two armour classes give two profiles over the same contexts. */
  lemma MapProfilesExample()
    ensures MapProfilesToAc([10, 15], ["1d4+1"], ["1d12+4"], DND5e)
            == [ProduceAttackProfile(10, ["1d4+1"], ["1d12+4"], DND5e), ProduceAttackProfile(15, ["1d4+1"], ["1d12+4"], DND5e)]
  {
    MapTwoProfiles(10, 15, ["1d4+1"], ["1d12+4"], DND5e);
  }

  lemma MapTwoProfiles(ac1: int, ac2: int, hitDetails: seq<string>, weaponDetails: seq<string>, ruleset: Ruleset)
    ensures MapProfilesToAc([ac1, ac2], hitDetails, weaponDetails, ruleset)
            == [ProduceAttackProfile(ac1, hitDetails, weaponDetails, ruleset), ProduceAttackProfile(ac2, hitDetails, weaponDetails, ruleset)]
  {
    var ps := MapProfilesToAc([ac1, ac2], hitDetails, weaponDetails, ruleset);
    assert ps[0] == ProduceAttackProfile(ac1, hitDetails, weaponDetails, ruleset);
    assert ps[1] == ProduceAttackProfile(ac2, hitDetails, weaponDetails, ruleset);
  }

  /** Five rows at armour class 5. */
  lemma ResultsToFrameExample()
    ensures ResultsToFrame(5, [0, 1, 2, 3, 4], [2, 4, 6, 8, 10], [10, 12, 14, 16, 18])
            == Some(Frame([1, 2, 3, 4, 5], [5, 5, 5, 5, 5], [2, 4, 6, 8, 10], [0, 1, 2, 3, 4], [10, 12, 14, 16, 18]))
  {
    var r := ResultsToFrame(5, [0, 1, 2, 3, 4], [2, 4, 6, 8, 10], [10, 12, 14, 16, 18]);
    assert r.value.iteration == [1, 2, 3, 4, 5];
    assert r.value.targetAc == [5, 5, 5, 5, 5];
  }

  /** Five identical turns of one hit for 2 damage at armour class 1. */
  method EvaluateAttackProfileExample() returns (frame: Frame)
    ensures frame.iteration == [1, 2, 3, 4, 5]
    ensures frame.targetAc == [1, 1, 1, 1, 1]
    ensures frame.hits == [1, 1, 1, 1, 1]
    ensures frame.crits == [0, 0, 0, 0, 0]
    ensures frame.damage == [2, 2, 2, 2, 2]
  {
    var profile := SimulationProfile(1, [], [], DND5e);
    var turn := TurnCounts(0, 1, 2);
    frame := EvaluateAttackProfile(profile, 5, [turn, turn, turn, turn, turn]);
  }
}
