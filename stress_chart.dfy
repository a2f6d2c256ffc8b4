/**
 * The stress chart: stress samples are sorted by time on a copy, grouped by
 * calendar day and plotted as one point per day holding the day's average level.
 */
module StressChart {
  import opened Common
  import opened Seqs
  import opened DayGroups

  /** A stress sample: its time (ms) and its level. */
  datatype StressEntry = StressEntry(date: int, level: real)

  /** The chart: one label (the calendar day) and one average level per day. */
  datatype Chart = Chart(labels: seq<int>, levels: seq<real>)

  function Day(e: StressEntry): int { DayOf(e.date) }
  function Time(e: StressEntry): real { e.date as real }
  function Level(e: StressEntry): real { e.level }
  /** The stress accumulator has a single running sum; the second one stays 0. */
  function Unused(e: StressEntry): real { 0.0 }

  function SortedByDate(data: seq<StressEntry>): seq<StressEntry>
  {
    SortByKey(data, Time)
  }

  /** `groupedData`: per day, the sum of the levels and the number of samples. */
  function Grouped(data: seq<StressEntry>): Groups
  {
    GroupBy(SortedByDate(data), Day, Level, Unused)
  }

  function BuildChart(data: seq<StressEntry>): (c: Chart)
    ensures |c.labels| == |c.levels|
  {
    var g := Grouped(data);
    Chart(g.days, Averages(g.days, g.totals, SumA))
  }

  /**
   * One point per distinct day of the input, in ascending day order; each point is
   * the average of that day's levels, so it lies between any lower and upper bound
   * of those levels (in particular between their minimum and maximum).
   */
  lemma BuildChartPoints(data: seq<StressEntry>)
    ensures StrictlyIncreasing(BuildChart(data).labels)
    ensures forall d :: d in BuildChart(data).labels <==> exists i :: 0 <= i < |data| && Day(data[i]) == d
    ensures forall i :: 0 <= i < |BuildChart(data).labels| ==>
      var day := OnDay(SortedByDate(data), Day, BuildChart(data).labels[i]);
      |day| >= 1 && BuildChart(data).levels[i] == SumBy(day, Level) / |day| as real
  {
    var sorted := SortedByDate(data);
    var c := BuildChart(data);
    SortByKeySorted(data, Time);
    forall i, j | 0 <= i < j < |sorted| ensures Day(sorted[i]) <= Day(sorted[j]) {
      DayOfMonotone(sorted[i].date, sorted[j].date);
    }
    GroupBySortedAscending(sorted, Day, Level, Unused);
    forall d ensures d in c.labels <==> exists i :: 0 <= i < |data| && Day(data[i]) == d {
      GroupByKeys(sorted, Day, Level, Unused, d);
      if exists i :: 0 <= i < |data| && Day(data[i]) == d {
        var i :| 0 <= i < |data| && Day(data[i]) == d;
        SortByKeyMember(data, Time, data[i]);
      }
      if exists i :: 0 <= i < |sorted| && Day(sorted[i]) == d {
        var i :| 0 <= i < |sorted| && Day(sorted[i]) == d;
        SortByKeyMember(data, Time, sorted[i]);
      }
    }
    forall i | 0 <= i < |c.labels|
      ensures var day := OnDay(sorted, Day, c.labels[i]);
        |day| >= 1 && c.levels[i] == SumBy(day, Level) / |day| as real
    {
      GroupByTotals(sorted, Day, Level, Unused, c.labels[i]);
    }
  }

  /** A day's average lies within any bounds of that day's levels. */
  lemma AverageWithinBounds(data: seq<StressEntry>, i: int, lo: real, hi: real)
    requires 0 <= i < |BuildChart(data).labels|
    requires var day := OnDay(SortedByDate(data), Day, BuildChart(data).labels[i]);
      forall k :: 0 <= k < |day| ==> lo <= day[k].level <= hi
    ensures lo <= BuildChart(data).levels[i] <= hi
  {
    var g := Grouped(data);
    var d := g.days[i];
    GroupByAverageBounds(SortedByDate(data), Day, Level, Unused, d, lo, hi);
  }

  /** The counts of all plotted days add up to the number of samples. */
  lemma BuildChartCounts(data: seq<StressEntry>)
    ensures CountOver(Grouped(data).days, Grouped(data).totals) == |data|
  {
    GroupByCountsAddUp(SortedByDate(data), Day, Level, Unused);
  }
}
