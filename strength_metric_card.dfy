/**
 * The strength-metric card's mini bar chart: one bar per history value, scaled
 * so the largest value is 30 units high. There is no guard for an empty or
 * all-zero history, so heights are JavaScript numbers.
 */
module StrengthMetricCard {
  import opened Common
  import opened Seqs

  /** The chart's full height. */
  const BarScale: real := 30.0

  /** `getBarHeight`: `value / maxValue * 30`. */
  function BarHeight(value: real, maxValue: real): JsNumber
  {
    Times(Divide(value, maxValue), BarScale)
  }

  function HeightFor(maxValue: real): real -> JsNumber
  {
    (v: real) => BarHeight(v, maxValue)
  }

  /** Against a positive maximum, a height is value/maximum × 30: 30 for the maximum, within [0, 30] below it. */
  lemma BarHeightSpec(value: real, maxValue: real)
    requires maxValue > 0.0
    ensures BarHeight(value, maxValue).Finite?
    ensures BarHeight(value, maxValue).value * maxValue == value * BarScale
    ensures value == maxValue ==> BarHeight(value, maxValue) == Finite(BarScale)
    ensures 0.0 <= value <= maxValue ==> 0.0 <= BarHeight(value, maxValue).value <= BarScale
  {
    var q := value / maxValue;
    assert q * maxValue == value;
    assert q * BarScale * maxValue == value * BarScale;
    if 0.0 <= value <= maxValue {
      AverageBounds(value, maxValue, 0.0, 1.0);
    }
  }

  /** The bars of the history, `maxValue = Math.max(...history)`; an empty history has no bars. */
  function Bars(history: seq<real>): seq<JsNumber>
  {
    if history == [] then [] else Map(history, HeightFor(Largest(history)))
  }

  /** `bar` is `value / maxValue * 30`. */
  predicate ScaledTo(bar: JsNumber, value: real, maxValue: real)
  {
    bar.Finite? && bar.value * maxValue == value * BarScale
  }

  predicate WithinChart(bar: JsNumber)
  {
    bar.Finite? && 0.0 <= bar.value <= BarScale
  }

  /**
   * One bar per value, in order; with a positive maximum each bar is its value
   * scaled against it, the largest value is 30 high, and for a non-negative
   * history every bar lies in [0, 30].
   */
  lemma BarsSpec(history: seq<real>)
    ensures |Bars(history)| == |history|
    ensures history != [] && Largest(history) > 0.0 ==>
      forall i :: 0 <= i < |history| ==> ScaledTo(Bars(history)[i], history[i], Largest(history))
    ensures history != [] && Largest(history) > 0.0 ==>
      forall i :: 0 <= i < |history| && history[i] == Largest(history) ==> Bars(history)[i] == Finite(BarScale)
    ensures history != [] && Largest(history) > 0.0 && (forall i :: 0 <= i < |history| ==> history[i] >= 0.0) ==>
      forall i :: 0 <= i < |history| ==> WithinChart(Bars(history)[i])
  {
    if history != [] && Largest(history) > 0.0 {
      var m := Largest(history);
      forall i | 0 <= i < |history|
        ensures ScaledTo(Bars(history)[i], history[i], m)
        ensures history[i] >= 0.0 ==> WithinChart(Bars(history)[i])
        ensures history[i] == m ==> Bars(history)[i] == Finite(BarScale)
      {
        assert Bars(history)[i] == BarHeight(history[i], m);
        BarHeightSpec(history[i], m);
      }
    }
  }

  /** An all-zero history divides 0 by 0: every bar is NaN. */
  lemma AllZeroHistory(history: seq<real>)
    requires history != []
    requires forall i :: 0 <= i < |history| ==> history[i] == 0.0
    ensures forall i :: 0 <= i < |Bars(history)| ==> Bars(history)[i] == NaN
  {
    var j :| 0 <= j < |history| && history[j] == Largest(history);
  }
}
