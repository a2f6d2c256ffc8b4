/** The sleep summary card: the share of the night spent in each phase. */
module SleepSummary {
  import opened Common
  import opened SleepData

  /** `phase / total * 100`, with JavaScript's result for a zero total. */
  function Percent(phase: real, total: real): (r: JsNumber)
    ensures total != 0.0 ==> r.Finite? && r.value * total == phase * 100.0
    ensures total == 0.0 ==> !r.Finite?
  {
    Times(Divide(phase, total), 100.0)
  }

  /** The four phase shares in the order the bar draws them. */
  datatype Phases = Phases(deep: JsNumber, rem: JsNumber, light: JsNumber, awake: JsNumber)

  function PhasesOf(d: SleepRecord): Phases
  {
    var total := d.duration;
    Phases(Percent(d.deepSleepDuration, total), Percent(d.remSleepDuration, total),
           Percent(d.lightSleepDuration, total), Percent(d.awakeTime, total))
  }

  /** When the phases make up the whole night, the shares add up to 100. */
  lemma PhasesAddUp(d: SleepRecord)
    requires d.duration != 0.0
    requires d.deepSleepDuration + d.remSleepDuration + d.lightSleepDuration + d.awakeTime == d.duration
    ensures var p := PhasesOf(d);
      p.deep.value + p.rem.value + p.light.value + p.awake.value == 100.0
  {
    var p := PhasesOf(d);
    var t := d.duration;
    assert (p.deep.value + p.rem.value + p.light.value + p.awake.value) * t
        == (d.deepSleepDuration + d.remSleepDuration + d.lightSleepDuration + d.awakeTime) * 100.0;
  }

  /** A phase no longer than the night gets a share between 0 and 100; a zero-length night gets no number. */
  lemma PercentBounds(phase: real, total: real)
    ensures total > 0.0 && 0.0 <= phase <= total ==> 0.0 <= Percent(phase, total).value <= 100.0
    ensures total == 0.0 ==> (Percent(phase, total).NaN? <==> phase == 0.0)
  {
    if total > 0.0 && 0.0 <= phase <= total {
      PercentOfWhole(phase, total);
    }
  }

  /** The legend shows `Math.round` of each share: within half a point of it, and in [0, 100] when the share is. */
  lemma LabelBounds(p: JsNumber)
    ensures p.Finite? ==> RoundJs(p).Finite? && p.value - 0.5 <= RoundJs(p).value <= p.value + 0.5
    ensures p.Finite? && 0.0 <= p.value <= 100.0 ==> 0.0 <= RoundJs(p).value <= 100.0
  {
    if p.Finite? && 0.0 <= p.value <= 100.0 {
      RoundMonotone(0.0, p.value);
      RoundMonotone(p.value, 100.0);
    }
  }
}
