/**
 * The hydration chart: intake samples are totalled per calendar day and the last
 * seven days, oldest first, are plotted with their totals (0 for a day without
 * samples).
 */
module HydrationChart {
  import opened Common
  import opened Seqs
  import opened DayGroups

  /** An intake sample: its time (ms) and the amount drunk. */
  datatype HydrationEntry = HydrationEntry(date: int, amount: real)

  /** The chart: seven labels (calendar days) and seven totals. */
  datatype Chart = Chart(labels: seq<int>, totals: seq<real>)

  function Day(e: HydrationEntry): int { DayOf(e.date) }
  function Amount(e: HydrationEntry): real { e.amount }
  /** The hydration accumulator has a single running sum; the second one stays 0. */
  function Unused(e: HydrationEntry): real { 0.0 }

  /** `groupedData`, over the samples in input order. */
  function Grouped(data: seq<HydrationEntry>): Groups
  {
    GroupBy(data, Day, Amount, Unused)
  }

  /** The window `today - 6, ..., today`. */
  function Window(today: int): (w: seq<int>)
    ensures |w| == 7
    ensures forall k :: 0 <= k < 7 ==> w[k] == today - 6 + k
  {
    seq(7, k => today - 6 + k)
  }

  /** `getDaysArray`: the loop that pushes the day `i` days back, for `i` from 6 down to 0. */
  method DaysArray(today: int) returns (result: seq<int>)
    ensures result == Window(today)
  {
    result := [];
    var i := 6;
    while i >= 0
      invariant -1 <= i <= 6
      invariant |result| == 6 - i
      invariant forall k :: 0 <= k < |result| ==> result[k] == today - 6 + k
    {
      result := result + [today - i];
      i := i - 1;
    }
  }

  /** `dataPoints`: the total of each window day, 0 when the day has no samples. */
  function BuildChart(data: seq<HydrationEntry>, today: int): (c: Chart)
    ensures |c.labels| == |c.totals| == 7
  {
    var g := Grouped(data);
    var w := Window(today);
    Chart(w, Map(w, SumAOf(g)))
  }

  /** The plotted total of one day is the sum of its samples' amounts, and 0 for a day without samples. */
  lemma TotalOfDay(data: seq<HydrationEntry>, d: int)
    ensures SumAOf(Grouped(data))(d) == SumBy(OnDay(data, Day, d), Amount)
    ensures (forall i :: 0 <= i < |data| ==> Day(data[i]) != d) ==> SumAOf(Grouped(data))(d) == 0.0
  {
    GroupByTotals(data, Day, Amount, Unused, d);
    GroupByKeys(data, Day, Amount, Unused, d);
  }

  /** Each plotted total is the sum of the amounts of that day's samples; a day without samples plots 0. */
  lemma BuildChartTotals(data: seq<HydrationEntry>, today: int)
    ensures forall k :: 0 <= k < 7 ==>
      BuildChart(data, today).totals[k] == SumBy(OnDay(data, Day, today - 6 + k), Amount)
    ensures forall k :: 0 <= k < 7 && (forall i :: 0 <= i < |data| ==> Day(data[i]) != today - 6 + k) ==>
      BuildChart(data, today).totals[k] == 0.0
  {
    var c := BuildChart(data, today);
    forall k | 0 <= k < 7
      ensures c.totals[k] == SumBy(OnDay(data, Day, today - 6 + k), Amount)
      ensures (forall i :: 0 <= i < |data| ==> Day(data[i]) != today - 6 + k) ==> c.totals[k] == 0.0
    {
      assert c.totals[k] == SumAOf(Grouped(data))(today - 6 + k);
      TotalOfDay(data, today - 6 + k);
    }
  }

  /** The plotted totals add up to the amounts of the samples inside the window; samples outside it count for nothing. */
  lemma BuildChartWindowSum(data: seq<HydrationEntry>, today: int)
    ensures SumBy(BuildChart(data, today).totals, x => x) == SumBy(Filter(data, InDays(Day, Window(today))), Amount)
  {
    var g := Grouped(data);
    var w := Window(today);
    assert NoDup(w);
    GroupByWindowSum(data, Day, Amount, Unused, w);
    SumByMap(w, SumAOf(g));
  }
}
