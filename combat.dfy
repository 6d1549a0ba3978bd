/** Closed tags and small sequence helpers shared by every generation of the
    simulator: the outcome of an attack roll, the rule family, the behaviour
    tags of dice and static modifiers, and the sums and counts the round
    accumulators are specified with. */
module Combat {

  /** Bounds of a signed 32-bit integer. */
  const I32_MIN: int := -0x8000_0000
  const I32_MAX: int := 0x7fff_ffff

  predicate InI32(n: int)
  {
    I32_MIN <= n <= I32_MAX
  }

  datatype Option<+T> = None | Some(value: T)

  datatype Result<+T, +E> = Ok(value: T) | Err(error: E)

  /** Outcome of one attack roll against a target armour class. */
  datatype HitResult = Miss | Hit | CriticalHit

  /** The rule family: D&D 5e style or Pathfinder 2e (tiered) style. */
  datatype Ruleset = DND5e | PF2e

  /** When a static modifier applies to a damage roll. */
  datatype ModifierBehaviour = OnHit | OnCritical | CanCritical | OnMiss

  /** How raw draws combine into one die result. */
  datatype RollBehaviour = Standard | Advantage | DoubleAdvantage | Disadvantage | Fatal | ExclusiveCrit

  /** Miss < Hit < CriticalHit. */
  function Rank(h: HitResult): nat
  {
    match h
    case Miss => 0
    case Hit => 1
    case CriticalHit => 2
  }

  /** Sum of a sequence, accumulated left to right. */
  function Sum(s: seq<int>): int
  {
    if |s| == 0 then 0 else Sum(s[..|s| - 1]) + s[|s| - 1]
  }

  /** `n` copies of `x`. */
  function Repeat<T>(x: T, n: nat): (r: seq<T>)
    ensures |r| == n
    ensures forall i :: 0 <= i < n ==> r[i] == x
  {
    if n == 0 then [] else Repeat(x, n - 1) + [x]
  }

  /** Number of critical hits among the outcomes. */
  function CountCrits(rs: seq<HitResult>): nat
  {
    if |rs| == 0 then 0
    else CountCrits(rs[..|rs| - 1]) + (if rs[|rs| - 1] == CriticalHit then 1 else 0)
  }

  /** Number of hits among the outcomes; a critical hit counts as a hit. */
  function CountHits(rs: seq<HitResult>): nat
  {
    if |rs| == 0 then 0
    else CountHits(rs[..|rs| - 1]) + (if rs[|rs| - 1] != Miss then 1 else 0)
  }

  /** Counting over one more outcome adds that outcome's own count. */
  lemma CountStep(rs: seq<HitResult>, h: HitResult)
    ensures CountCrits(rs + [h]) == CountCrits(rs) + CountCrits([h])
    ensures CountHits(rs + [h]) == CountHits(rs) + CountHits([h])
    ensures CountCrits([h]) == (if h == CriticalHit then 1 else 0)
    ensures CountHits([h]) == (if h != Miss then 1 else 0)
  {
    assert (rs + [h])[..|rs|] == rs;
    assert [h][..0] == [];
  }

  /** Whatever the outcomes, crits never exceed hits and hits never exceed
      the number of outcomes. */
  lemma {:induction false} CountsOrdered(rs: seq<HitResult>)
    ensures CountCrits(rs) <= CountHits(rs) <= |rs|
  {
    if |rs| > 0 {
      CountsOrdered(rs[..|rs| - 1]);
    }
  }

  /** Sums split over concatenation. */
  lemma {:induction false} SumAppend(a: seq<int>, b: seq<int>)
    ensures Sum(a + b) == Sum(a) + Sum(b)
    decreases |b|
  {
    if |b| == 0 {
      assert a + b == a;
    } else {
      assert (a + b)[..|a + b| - 1] == a + b[..|b| - 1];
      SumAppend(a, b[..|b| - 1]);
    }
  }
}
