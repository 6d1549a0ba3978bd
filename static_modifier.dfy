/** A fixed integer contribution to a roll, whose value in a damage roll
    depends on the hit outcome and on its behaviour tag. */
module StaticModifiers {
  import opened Combat

  datatype StaticModifier = StaticModifier(value: int, behaviour: ModifierBehaviour)

  /** Builds a modifier holding exactly the value and behaviour given. */
  function New(value: int, behaviour: ModifierBehaviour): (m: StaticModifier)
    ensures m.value == value && m.behaviour == behaviour
  {
    StaticModifier(value, behaviour)
  }

  /** The modifier's contribution. Without a hit condition (a to-hit roll)
      it is the plain value; with one it follows the behaviour table, and it
      is always 0, the value, or twice the value, the last only for a
      CanCritical modifier on a critical hit. */
  function EvaluateResult(m: StaticModifier, hit: Option<HitResult>): (r: int)
    ensures hit.None? ==> r == m.value
    ensures r == 0 || r == m.value || r == 2 * m.value
    ensures m.value != 0 ==>
              (r == 2 * m.value <==> hit == Some(CriticalHit) && m.behaviour == CanCritical)
    ensures m.behaviour == OnMiss ==> r == m.value
    ensures m.value != 0 && m.behaviour != OnMiss && hit == Some(Miss) ==> r != m.value
  {
    match hit
    case None => m.value
    case Some(h) =>
      match (m.behaviour, h)
      case (CanCritical, CriticalHit) => m.value * 2
      case (CanCritical, Hit) => m.value
      case (OnCritical, CriticalHit) => m.value
      case (OnHit, Hit) => m.value
      case (OnHit, CriticalHit) => m.value
      case (OnMiss, _) => m.value
      case (_, _) => 0
  }

  /** CanCritical: doubled on a critical hit, plain on a hit, nothing on a miss. */
  lemma CanCriticalTable(v: int)
    ensures EvaluateResult(StaticModifier(v, CanCritical), Some(CriticalHit)) == 2 * v
    ensures EvaluateResult(StaticModifier(v, CanCritical), Some(Hit)) == v
    ensures EvaluateResult(StaticModifier(v, CanCritical), Some(Miss)) == 0
  {
  }

  /** OnCritical: the value only on a critical hit. */
  lemma OnCriticalTable(v: int)
    ensures EvaluateResult(StaticModifier(v, OnCritical), Some(CriticalHit)) == v
    ensures EvaluateResult(StaticModifier(v, OnCritical), Some(Hit)) == 0
    ensures EvaluateResult(StaticModifier(v, OnCritical), Some(Miss)) == 0
  {
  }

  /** OnHit: the value on a hit or a critical hit, never doubled. */
  lemma OnHitTable(v: int)
    ensures EvaluateResult(StaticModifier(v, OnHit), Some(CriticalHit)) == v
    ensures EvaluateResult(StaticModifier(v, OnHit), Some(Hit)) == v
    ensures EvaluateResult(StaticModifier(v, OnHit), Some(Miss)) == 0
  {
  }

  /** A better outcome never lowers the contribution of a non-negative
      modifier, whatever its behaviour. */
  lemma OutcomeMonotone(m: StaticModifier, a: HitResult, b: HitResult)
    requires m.value >= 0 && Rank(a) <= Rank(b)
    ensures EvaluateResult(m, Some(a)) <= EvaluateResult(m, Some(b))
  {
  }

  /** Sum of the contributions of a list of modifiers under one condition
      (the `map(evaluate_result).sum()` of a roll collection). */
  function ModifierTotal(mods: seq<StaticModifier>, hit: Option<HitResult>): int
  {
    if |mods| == 0 then 0
    else ModifierTotal(mods[..|mods| - 1], hit) + EvaluateResult(mods[|mods| - 1], hit)
  }

  /** The plain values, in order. */
  function Values(mods: seq<StaticModifier>): (vs: seq<int>)
    ensures |vs| == |mods|
    ensures forall i :: 0 <= i < |mods| ==> vs[i] == mods[i].value
  {
    if |mods| == 0 then [] else Values(mods[..|mods| - 1]) + [mods[|mods| - 1].value]
  }

  /** Sum of the values of the modifiers carrying behaviour `b`. */
  function TaggedTotal(mods: seq<StaticModifier>, b: ModifierBehaviour): int
  {
    if |mods| == 0 then 0
    else TaggedTotal(mods[..|mods| - 1], b) + (if mods[|mods| - 1].behaviour == b then mods[|mods| - 1].value else 0)
  }

  /** With no hit condition the total is the sum of the raw values. */
  lemma {:induction false} UnconditionedTotal(mods: seq<StaticModifier>)
    ensures ModifierTotal(mods, None) == Sum(Values(mods))
  {
    if |mods| > 0 {
      UnconditionedTotal(mods[..|mods| - 1]);
      assert Values(mods)[..|mods| - 1] == Values(mods[..|mods| - 1]);
    }
  }

  /** On a miss only the OnMiss modifiers contribute. */
  lemma {:induction false} MissTotal(mods: seq<StaticModifier>)
    ensures ModifierTotal(mods, Some(Miss)) == TaggedTotal(mods, OnMiss)
  {
    if |mods| > 0 {
      MissTotal(mods[..|mods| - 1]);
    }
  }

  /** On a hit every modifier adds its value except the OnCritical ones. */
  lemma {:induction false} HitTotal(mods: seq<StaticModifier>)
    ensures ModifierTotal(mods, Some(Hit)) == Sum(Values(mods)) - TaggedTotal(mods, OnCritical)
  {
    if |mods| > 0 {
      HitTotal(mods[..|mods| - 1]);
      assert Values(mods)[..|mods| - 1] == Values(mods[..|mods| - 1]);
    }
  }

  /** A critical hit adds, over a plain hit, the CanCritical values once more
      and the OnCritical values. */
  lemma {:induction false} CriticalOverHit(mods: seq<StaticModifier>)
    ensures ModifierTotal(mods, Some(CriticalHit))
            == ModifierTotal(mods, Some(Hit)) + TaggedTotal(mods, CanCritical) + TaggedTotal(mods, OnCritical)
  {
    if |mods| > 0 {
      CriticalOverHit(mods[..|mods| - 1]);
    }
  }
}
