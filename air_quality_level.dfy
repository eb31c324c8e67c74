/**
  The Air Quality cluster's AirQualityEnum and the worst-of combination the
  firmware applies to it with `std::max`.
 */
module AirQualityLevels {

  datatype Level = Unknown | Good | Fair | Moderate | Poor | VeryPoor | ExtremelyPoor

  /** The enumerator's numeric value: what `std::max` compares and what is published as int16. */
  function Rank(l: Level): (r: nat)
    ensures r <= 6
    ensures r == 0 <==> l == Unknown
    ensures r == 6 <==> l == ExtremelyPoor
  {
    match l
    case Unknown => 0
    case Good => 1
    case Fair => 2
    case Moderate => 3
    case Poor => 4
    case VeryPoor => 5
    case ExtremelyPoor => 6
  }

  /** `std::max(a, b)`: the worse of two levels (the first one on a tie). */
  function Max(a: Level, b: Level): (r: Level)
    ensures Rank(a) <= Rank(r) && Rank(b) <= Rank(r)
    ensures r == a || r == b
  {
    if Rank(a) < Rank(b) then b else a
  }

  /** `std::max({a, b, c})`. */
  function Worst3(a: Level, b: Level, c: Level): (r: Level)
    ensures Rank(a) <= Rank(r) && Rank(b) <= Rank(r) && Rank(c) <= Rank(r)
    ensures r == a || r == b || r == c
    ensures r == Unknown ==> a == Unknown && b == Unknown && c == Unknown
  {
    Max(Max(a, b), c)
  }

  /** Levels are determined by their rank, so "the maximum by rank" names one level. */
  lemma RankInjective(a: Level, b: Level)
    ensures Rank(a) == Rank(b) ==> a == b
  {
  }

  /** The combination is the least upper bound: any level at least as bad as all three is at least as bad as it. */
  lemma Worst3IsLeastUpperBound(a: Level, b: Level, c: Level, bound: Level)
    requires Rank(a) <= Rank(bound) && Rank(b) <= Rank(bound) && Rank(c) <= Rank(bound)
    ensures Rank(Worst3(a, b, c)) <= Rank(bound)
  {
  }

  /** The combination does not depend on the order of its arguments. */
  lemma Worst3Symmetric(a: Level, b: Level, c: Level)
    ensures Worst3(a, b, c) == Worst3(b, a, c) == Worst3(c, b, a) == Worst3(a, c, b)
  {
    RankInjective(Worst3(a, b, c), Worst3(b, a, c));
    RankInjective(Worst3(a, b, c), Worst3(c, b, a));
    RankInjective(Worst3(a, b, c), Worst3(a, c, b));
  }
}
