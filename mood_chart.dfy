/**
 * The mood chart: mood samples are sorted by time on a copy, grouped by calendar
 * day, and plotted as one point per day holding the day's average mood and
 * average energy.
 */
module MoodChart {
  import opened Common
  import opened Seqs
  import opened DayGroups

  /** A mood sample: its time (ms), its mood value and its energy value. */
  datatype MoodEntry = MoodEntry(date: int, value: real, energy: real)

  /** The chart: one label (the calendar day) and one mood and energy average per day. */
  datatype Chart = Chart(labels: seq<int>, moods: seq<real>, energies: seq<real>)

  function Day(e: MoodEntry): int { DayOf(e.date) }
  function Time(e: MoodEntry): real { e.date as real }
  function Mood(e: MoodEntry): real { e.value }
  function Energy(e: MoodEntry): real { e.energy }

  /** `[...data].sort((a, b) => a.date - b.date)`. */
  function SortedByDate(data: seq<MoodEntry>): seq<MoodEntry>
  {
    SortByKey(data, Time)
  }

  /** `groupedData`: mood sums in the first sum, energy sums in the second. */
  function Grouped(data: seq<MoodEntry>): Groups
  {
    GroupBy(SortedByDate(data), Day, Mood, Energy)
  }

  function BuildChart(data: seq<MoodEntry>): (c: Chart)
    ensures |c.labels| == |c.moods| == |c.energies|
  {
    var g := Grouped(data);
    Chart(g.days, Averages(g.days, g.totals, SumA), Averages(g.days, g.totals, SumB))
  }

  /**
   * One point per distinct day of the input, in ascending day order, each holding
   * the average mood and the average energy of that day's samples.
   */
  lemma BuildChartPoints(data: seq<MoodEntry>)
    ensures StrictlyIncreasing(BuildChart(data).labels)
    ensures forall d :: d in BuildChart(data).labels <==> exists i :: 0 <= i < |data| && Day(data[i]) == d
    ensures forall i :: 0 <= i < |BuildChart(data).labels| ==>
      var day := OnDay(SortedByDate(data), Day, BuildChart(data).labels[i]);
      && |day| >= 1
      && BuildChart(data).moods[i] == SumBy(day, Mood) / |day| as real
      && BuildChart(data).energies[i] == SumBy(day, Energy) / |day| as real
  {
    var sorted := SortedByDate(data);
    var c := BuildChart(data);
    SortByKeySorted(data, Time);
    forall i, j | 0 <= i < j < |sorted| ensures Day(sorted[i]) <= Day(sorted[j]) {
      DayOfMonotone(sorted[i].date, sorted[j].date);
    }
    GroupBySortedAscending(sorted, Day, Mood, Energy);
    forall d ensures d in c.labels <==> exists i :: 0 <= i < |data| && Day(data[i]) == d {
      GroupByKeys(sorted, Day, Mood, Energy, d);
      if exists i :: 0 <= i < |data| && Day(data[i]) == d {
        var i :| 0 <= i < |data| && Day(data[i]) == d;
        SortByKeyMember(data, Time, data[i]);
      }
      if exists i :: 0 <= i < |sorted| && Day(sorted[i]) == d {
        var i :| 0 <= i < |sorted| && Day(sorted[i]) == d;
        SortByKeyMember(data, Time, sorted[i]);
      }
    }
    forall i | 0 <= i < |c.labels|
      ensures var day := OnDay(sorted, Day, c.labels[i]);
        |day| >= 1 && c.moods[i] == SumBy(day, Mood) / |day| as real && c.energies[i] == SumBy(day, Energy) / |day| as real
    {
      GroupByTotals(sorted, Day, Mood, Energy, c.labels[i]);
    }
  }

  /** The counts of all plotted days add up to the number of samples. */
  lemma BuildChartCounts(data: seq<MoodEntry>)
    ensures CountOver(Grouped(data).days, Grouped(data).totals) == |data|
  {
    GroupByCountsAddUp(SortedByDate(data), Day, Mood, Energy);
  }
}
