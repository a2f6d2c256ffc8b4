/** The readiness gauge: a ring filled to the readiness score, coloured by band. */
module ReadinessGauge {
  import opened Common

  /** `normalizedScore`: the score clamped to [0, 100]. */
  function Normalized(score: JsNumber): (r: JsNumber)
    ensures r.Finite? ==> 0.0 <= r.value <= 100.0
    ensures score.Finite? && 0.0 <= score.value <= 100.0 ==> r == score
  {
    ClampJs(score, 0.0, 100.0)
  }

  /** `getColor`: red below 40, amber below 60, green below 80, otherwise the primary colour. */
  function ColorOf(score: JsNumber): (r: ThemeColor)
  {
    if Below(score, 40.0) then ErrorColor
    else if Below(score, 60.0) then WarningColor
    else if Below(score, 80.0) then SuccessColor
    else PrimaryColor
  }

  /** How good a band is, from worst to best. */
  function Rank(c: ThemeColor): nat
  {
    match c
    case ErrorColor => 0
    case WarningColor => 1
    case SuccessColor => 2
    case _ => 3
  }

  /** The gauge's colour: the band of the clamped score. */
  function GaugeColor(score: JsNumber): ThemeColor
  {
    ColorOf(Normalized(score))
  }

  /**
   * The bands as thresholds on the clamped score, and a higher score never
   * gets a worse band.
   */
  lemma BandsSpec(score: real, other: real)
    ensures var v := Clamp(score, 0.0, 100.0);
      && (GaugeColor(Finite(score)) == ErrorColor <==> v < 40.0)
      && (GaugeColor(Finite(score)) == WarningColor <==> 40.0 <= v < 60.0)
      && (GaugeColor(Finite(score)) == SuccessColor <==> 60.0 <= v < 80.0)
      && (GaugeColor(Finite(score)) == PrimaryColor <==> 80.0 <= v)
    ensures score <= other ==> Rank(GaugeColor(Finite(score))) <= Rank(GaugeColor(Finite(other)))
  {
  }

  /** The shown number, `Math.round(normalizedScore)`, lies in [0, 100]. */
  lemma DisplayInRange(score: JsNumber)
    ensures Normalized(score).Finite? ==> 0.0 <= RoundJs(Normalized(score)).value <= 100.0
    ensures Normalized(Normalized(score)) == Normalized(score)
  {
    var v := Normalized(score);
    if v.Finite? {
      RoundMonotone(0.0, v.value);
      RoundMonotone(v.value, 100.0);
    }
    ClampJsIdempotent(score, 0.0, 100.0);
  }

  /** The filled share of the ring, `normalizedScore / 100`, is between empty and full. */
  lemma ArcFill(score: JsNumber)
    ensures Normalized(score).Finite? ==> 0.0 <= Normalized(score).value / 100.0 <= 1.0
  {
  }

  /** A NaN score is not clamped: the gauge shows NaN in the top band's colour. */
  lemma NaNScore()
    ensures Normalized(NaN) == NaN && GaugeColor(NaN) == PrimaryColor && RoundJs(Normalized(NaN)) == NaN
  {
  }
}
