/** The three-valued balance classification shared by the force-balance and
    moment-balance evaluators, and the small real-number helpers
    (`Math.abs`, `Math.min`, `Math.max`) the evaluators are written with. */
module Tiers {

  /** 'unbalanced' | 'almost' | 'balanced' */
  datatype Balance = Unbalanced | Almost | Balanced

  /** Position of a classification on the scale unbalanced < almost < balanced. */
  function Rank(b: Balance): nat {
    match b
    case Unbalanced => 0
    case Almost => 1
    case Balanced => 2
  }

  /** Math.abs */
  function Abs(x: real): (r: real)
    ensures r >= 0.0
    ensures r == x || r == -x
  {
    if x < 0.0 then -x else x
  }

  /** Math.min */
  function Min(a: real, b: real): (r: real)
    ensures r <= a && r <= b
    ensures r == a || r == b
  {
    if a <= b then a else b
  }

  /** Math.max */
  function Max(a: real, b: real): (r: real)
    ensures r >= a && r >= b
    ensures r == a || r == b
  {
    if a >= b then a else b
  }

  /** The if / else-if / else ladder both evaluators use: a residual below
      `tight` is balanced, below `loose` almost balanced, otherwise unbalanced. */
  function Classify(residual: real, tight: real, loose: real): Balance {
    if residual < tight then Balanced
    else if residual < loose then Almost
    else Unbalanced
  }

  /** With ordered thresholds the three tiers partition the residuals into
      [0, tight), [tight, loose) and [loose, infinity). */
  lemma ClassifyTiers(residual: real, tight: real, loose: real)
    requires tight <= loose
    ensures Classify(residual, tight, loose) == Balanced <==> residual < tight
    ensures Classify(residual, tight, loose) == Almost <==> tight <= residual < loose
    ensures Classify(residual, tight, loose) == Unbalanced <==> loose <= residual
  {
  }

  /** A larger residual never earns a better classification. */
  lemma ClassifyMonotone(r1: real, r2: real, tight: real, loose: real)
    requires tight <= loose
    requires r1 <= r2
    ensures Rank(Classify(r2, tight, loose)) <= Rank(Classify(r1, tight, loose))
  {
  }
}
