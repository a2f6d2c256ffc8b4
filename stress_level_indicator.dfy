/** The stress ring: the stress level out of 100, coloured by severity. */
module StressLevelIndicator {
  import opened Common

  /** `normalizedLevel`: the level clamped to [0, 100]. */
  function Normalized(level: JsNumber): (r: JsNumber)
    ensures r.Finite? ==> 0.0 <= r.value <= 100.0
    ensures level.Finite? && 0.0 <= level.value <= 100.0 ==> r == level
  {
    ClampJs(level, 0.0, 100.0)
  }

  /** `getColor`: green below 30, blue below 60, amber below 80, otherwise red. */
  function ColorOf(level: JsNumber): (r: ThemeColor)
  {
    if Below(level, 30.0) then SuccessColor
    else if Below(level, 60.0) then InfoColor
    else if Below(level, 80.0) then WarningColor
    else ErrorColor
  }

  /** The severity a colour signals. */
  function Severity(c: ThemeColor): nat
  {
    match c
    case SuccessColor => 0
    case InfoColor => 1
    case WarningColor => 2
    case _ => 3
  }

  function RingColor(level: JsNumber): ThemeColor
  {
    ColorOf(Normalized(level))
  }

  /** The bands as thresholds on the clamped level; more stress is never shown as less severe. */
  lemma BandsSpec(level: real, other: real)
    ensures var v := Clamp(level, 0.0, 100.0);
      && (RingColor(Finite(level)) == SuccessColor <==> v < 30.0)
      && (RingColor(Finite(level)) == InfoColor <==> 30.0 <= v < 60.0)
      && (RingColor(Finite(level)) == WarningColor <==> 60.0 <= v < 80.0)
      && (RingColor(Finite(level)) == ErrorColor <==> 80.0 <= v)
    ensures level <= other ==> Severity(RingColor(Finite(level))) <= Severity(RingColor(Finite(other)))
  {
  }

  /** The shown number, `Math.round(normalizedLevel)`, lies in [0, 100]; clamping twice changes nothing. */
  lemma DisplayInRange(level: JsNumber)
    ensures Normalized(level).Finite? ==> 0.0 <= RoundJs(Normalized(level)).value <= 100.0
    ensures Normalized(Normalized(level)) == Normalized(level)
  {
    var v := Normalized(level);
    if v.Finite? {
      RoundMonotone(0.0, v.value);
      RoundMonotone(v.value, 100.0);
    }
    ClampJsIdempotent(level, 0.0, 100.0);
  }
}
