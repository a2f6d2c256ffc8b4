/**
 * One row of the workout logger: a planned set with a recovery-adjusted
 * weight suggestion.
 */
module SetRow {
  import opened Common

  /** The parts of a planned set the suggestion reads. */
  datatype PlannedSet = PlannedSet(weight: Option<real>, completed: bool)

  /** The recovery status prop, `good` when it is not given. */
  function StatusOrGood(status: Option<Status>): (r: Status)
    ensures status.Some? ==> r == status.value
    ensures status.None? ==> r == Good
  {
    if status.Some? then status.value else Good
  }

  /** `getWeightAdjustment`: the suggested change in percent. */
  function WeightAdjustment(status: Option<Status>): (r: int)
    ensures r < 0 <==> StatusOrGood(status) in {Poor, Fair}
    ensures -10 <= r <= 0
  {
    match StatusOrGood(status)
    case Poor => -10
    case Fair => -5
    case _ => 0
  }

  /** `set.weight` is truthy: present and not zero. */
  predicate HasWeight(s: PlannedSet)
  {
    s.weight.Some? && s.weight.value != 0.0
  }

  /** `adjustedWeight`: the planned weight scaled by the adjustment and rounded, or 0 without a weight. */
  function AdjustedWeight(s: PlannedSet, status: Option<Status>): (r: int)
    ensures !HasWeight(s) ==> r == 0
    ensures HasWeight(s) ==> var x := s.weight.value * (1.0 + WeightAdjustment(status) as real / 100.0);
      r as real <= x + 0.5 < r as real + 1.0
  {
    if HasWeight(s) then Round(s.weight.value * (1.0 + WeightAdjustment(status) as real / 100.0)) else 0
  }

  /** `showRecoveryAdjustment`. */
  predicate ShowsAdjustment(status: Option<Status>)
  {
    StatusOrGood(status) == Poor || StatusOrGood(status) == Fair
  }

  /** The badge with the adjusted weight: only for a reduced status, a planned weight and an open set. */
  predicate ShowsHint(s: PlannedSet, status: Option<Status>)
  {
    ShowsAdjustment(status) && HasWeight(s) && !s.completed
  }

  /** The badge is shown exactly when the suggestion is a real reduction of a planned, open set. */
  lemma HintMeansReduction(s: PlannedSet, status: Option<Status>)
    ensures ShowsHint(s, status) <==> WeightAdjustment(status) < 0 && HasWeight(s) && !s.completed
    ensures status.None? ==> !ShowsHint(s, status)
  {
  }

  /**
   * For a whole, non-negative planned weight the suggestion never exceeds the
   * plan and never drops below zero; without a reduction it is the plan itself.
   */
  lemma AdjustedIsReduction(w: nat, completed: bool, status: Option<Status>)
    ensures AdjustedWeight(PlannedSet(Some(w as real), completed), status) <= w
    ensures 0 <= AdjustedWeight(PlannedSet(Some(w as real), completed), status)
    ensures !ShowsAdjustment(status) ==> AdjustedWeight(PlannedSet(Some(w as real), completed), status) == w
  {
    var adj := WeightAdjustment(status);
    var x := w as real * (1.0 + adj as real / 100.0);
    MulNonNegative(w as real, 1.0 + adj as real / 100.0);
    MulNonNegative(w as real, -adj as real / 100.0);
    assert x == w as real - w as real * (-adj as real / 100.0);
    RoundMonotone(0.0, x);
    RoundMonotone(x, w as real);
  }

  /** Under poor recovery a plan of more than 5 is strictly reduced. */
  lemma PoorReducesStrictly(w: nat, completed: bool)
    requires w > 5
    ensures AdjustedWeight(PlannedSet(Some(w as real), completed), Some(Poor)) < w
  {
  }
}
