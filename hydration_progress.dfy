/** The hydration ring: the day's intake as a share of the goal, coloured by band. */
module HydrationProgress {
  import opened Common

  /** `normalizedPercentage`: the given percentage clamped to [0, 100]. */
  function Normalized(percentage: JsNumber): (r: JsNumber)
    ensures r.Finite? ==> 0.0 <= r.value <= 100.0
    ensures percentage.Finite? && 0.0 <= percentage.value <= 100.0 ==> r == percentage
  {
    ClampJs(percentage, 0.0, 100.0)
  }

  /** `getColor`: red below 30, amber below 60, blue below 90, otherwise green. */
  function ColorOf(percentage: JsNumber): (r: ThemeColor)
  {
    if Below(percentage, 30.0) then ErrorColor
    else if Below(percentage, 60.0) then WarningColor
    else if Below(percentage, 90.0) then InfoColor
    else SuccessColor
  }

  /** How close a band is to the goal. */
  function Rank(c: ThemeColor): nat
  {
    match c
    case ErrorColor => 0
    case WarningColor => 1
    case InfoColor => 2
    case _ => 3
  }

  function RingColor(percentage: JsNumber): ThemeColor
  {
    ColorOf(Normalized(percentage))
  }

  /** The bands as thresholds on the clamped percentage; more water never gets a worse band. */
  lemma BandsSpec(percentage: real, other: real)
    ensures var v := Clamp(percentage, 0.0, 100.0);
      && (RingColor(Finite(percentage)) == ErrorColor <==> v < 30.0)
      && (RingColor(Finite(percentage)) == WarningColor <==> 30.0 <= v < 60.0)
      && (RingColor(Finite(percentage)) == InfoColor <==> 60.0 <= v < 90.0)
      && (RingColor(Finite(percentage)) == SuccessColor <==> 90.0 <= v)
    ensures percentage <= other ==> Rank(RingColor(Finite(percentage))) <= Rank(RingColor(Finite(other)))
  {
  }

  /** What the ring shows: the rounded clamped percentage, and the intake and goal in ml. */
  datatype Readout = Readout(percent: JsNumber, current: real, goal: real)

  /**
   * The percentage shown is the rounded clamped percentage prop, within
   * [0, 100]; intake and goal are shown as given, and the percentage is not
   * recomputed from them.
   */
  function ReadoutOf(percentage: JsNumber, current: real, goal: real): (r: Readout)
    ensures r.current == current && r.goal == goal
    ensures r.percent == RoundJs(Normalized(percentage))
    ensures r.percent.Finite? <==> Normalized(percentage).Finite?
    ensures r.percent.Finite? ==> 0.0 <= r.percent.value <= 100.0
  {
    var v := Normalized(percentage);
    if v.Finite? then
      RoundMonotone(0.0, v.value);
      RoundMonotone(v.value, 100.0);
      Readout(RoundJs(v), current, goal)
    else
      Readout(RoundJs(v), current, goal)
  }

  /** The shown percentage does not depend on the intake or the goal. */
  lemma PercentIgnoresAmounts(percentage: JsNumber, current: real, goal: real, current': real, goal': real)
    ensures ReadoutOf(percentage, current, goal).percent == ReadoutOf(percentage, current', goal').percent
  {
  }
}
