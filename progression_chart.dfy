/**
 * The progression line chart of a series of dated values: its axis bounds, its
 * maximum, average and change statistics, and its labels.
 *
 * The locale-dependent `toLocaleDateString` is not part of this model; it is the
 * parameter `format`, given the timeframe and the date string.
 */
module ProgressionChart {
  import opened Common
  import opened Seqs

  datatype ProgressionPoint = ProgressionPoint(date: string, value: real)

  datatype Timeframe = Week | Month | Year | All

  function Value(p: ProgressionPoint): real { p.value }

  /** The numbers shown above the chart; on empty data they are the IEEE results of the unguarded expressions. */
  datatype Stats = Stats(
    minValue: JsNumber,
    maxValue: JsNumber,
    range: JsNumber,
    yAxisMin: JsNumber,
    yAxisMax: JsNumber,
    average: JsNumber,
    change: JsNumber,
    changeIsGain: bool)

  /** `(last - first) / first * 100`. */
  function ChangeOf(first: real, last: real): JsNumber
  {
    Times(Divide(last - first, first), 100.0)
  }

  lemma ChangeOfSpec(first: real, last: real)
    ensures first != 0.0 ==> ChangeOf(first, last).Finite? && ChangeOf(first, last).value * first == (last - first) * 100.0
    ensures first > 0.0 ==> (ChangeOf(first, last).value > 0.0 <==> last > first) && (ChangeOf(first, last).value < 0.0 <==> last < first)
    ensures first == 0.0 ==> !ChangeOf(first, last).Finite? && (ChangeOf(first, last).NaN? <==> last == 0.0)
  {
    if first != 0.0 {
      var q := (last - first) / first;
      assert q * first == last - first;
      assert q * 100.0 * first == (last - first) * 100.0;
      if first > 0.0 {
        PercentOfPositive(last - first, first);
      }
    }
  }

  function StatsOf(data: seq<ProgressionPoint>): Stats
  {
    var values := Map(data, Value);
    if values == [] then
      // min = Infinity, max = -Infinity, range = -Infinity; yAxisMin = max(0, Infinity);
      // yAxisMax = -Infinity; 0 / 0 and undefined arithmetic give NaN; undefined > undefined is false.
      Stats(PosInfinity, NegInfinity, NegInfinity, PosInfinity, NegInfinity, NaN, NaN, false)
    else
      var lo := Smallest(values);
      var hi := Largest(values);
      var range := hi - lo;
      var first := values[0];
      var last := values[|values| - 1];
      Stats(
        Finite(lo),
        Finite(hi),
        Finite(range),
        Finite(Max(0.0, lo - range * 0.1)),
        Finite(hi + range * 0.1),
        Finite(SumBy(data, Value) / |values| as real),
        ChangeOf(first, last),
        last > first)
  }

  /**
   * On non-empty data: min and max bound every value and are attained, the range
   * is their non-negative difference, the y-axis minimum is non-negative and (for
   * non-negative data) at most min, and the y-axis maximum is at least max.
   */
  lemma AxisBounds(data: seq<ProgressionPoint>)
    requires data != []
    ensures var st := StatsOf(data);
      && st.minValue.Finite? && st.maxValue.Finite? && st.range.Finite?
      && st.yAxisMin.Finite? && st.yAxisMax.Finite?
      && (forall i :: 0 <= i < |data| ==> st.minValue.value <= data[i].value <= st.maxValue.value)
      && (exists i :: 0 <= i < |data| && data[i].value == st.minValue.value)
      && (exists i :: 0 <= i < |data| && data[i].value == st.maxValue.value)
      && st.range.value == st.maxValue.value - st.minValue.value >= 0.0
      && st.yAxisMin.value >= 0.0
      && ((forall i :: 0 <= i < |data| ==> data[i].value >= 0.0) ==> st.yAxisMin.value <= st.minValue.value)
      && st.yAxisMax.value >= st.maxValue.value
  {
    var values := Map(data, Value);
    var i :| 0 <= i < |values| && values[i] == Smallest(values);
    var j :| 0 <= j < |values| && values[j] == Largest(values);
    assert Smallest(values) <= values[j];
  }

  /** The average of non-empty data lies between its min and max. */
  lemma AverageWithinRange(data: seq<ProgressionPoint>)
    requires data != []
    ensures var st := StatsOf(data);
      st.average.Finite? && st.minValue.value <= st.average.value <= st.maxValue.value
  {
    var values := Map(data, Value);
    SumByAverage(data, Value, Smallest(values), Largest(values));
  }

  /** The change shown is (last − first)/first × 100, coloured as a gain exactly when last > first. */
  lemma StatsChange(data: seq<ProgressionPoint>)
    requires data != []
    ensures StatsOf(data).change == ChangeOf(data[0].value, data[|data| - 1].value)
    ensures StatsOf(data).changeIsGain == (data[|data| - 1].value > data[0].value)
  {
    var values := Map(data, Value);
    assert values[0] == data[0].value;
    assert values[|values| - 1] == data[|data| - 1].value;
  }

  /** Empty data: no guard catches it, so every statistic is an infinity or NaN and the change is not a gain. */
  lemma EmptyStats(data: seq<ProgressionPoint>)
    requires data == []
    ensures var st := StatsOf(data);
      && st.maxValue == NegInfinity && st.average == NaN && st.change == NaN
      && st.yAxisMin == PosInfinity && st.yAxisMax == NegInfinity && !st.changeIsGain
  {
  }

  datatype Chart = Chart(labels: seq<string>, values: seq<real>, drawn: bool)

  function DateLabel(timeframe: Option<Timeframe>, format: (Timeframe, string) -> string): ProgressionPoint -> string
  {
    var tf := if timeframe.Some? then timeframe.value else Month;
    (p: ProgressionPoint) => format(tf, p.date)
  }

  /** `chartData` and the `data.length > 1` guard; the timeframe defaults to "month". */
  function ChartOf(data: seq<ProgressionPoint>, timeframe: Option<Timeframe>, format: (Timeframe, string) -> string): Chart
  {
    Chart(Map(data, DateLabel(timeframe, format)), Map(data, Value), |data| > 1)
  }

  /** One label and one value per point, in input order; drawn only from two points on. */
  lemma ChartSpec(data: seq<ProgressionPoint>, timeframe: Option<Timeframe>, format: (Timeframe, string) -> string)
    ensures var c := ChartOf(data, timeframe, format);
      var tf := if timeframe.Some? then timeframe.value else Month;
      && |c.labels| == |data| == |c.values|
      && (forall i :: 0 <= i < |data| ==> c.labels[i] == format(tf, data[i].date) && c.values[i] == data[i].value)
      && (c.drawn <==> |data| >= 2)
  {
  }
}
