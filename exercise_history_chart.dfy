/**
 * The history chart of one exercise: the points are sorted by date on a copy,
 * labelled "month/day", projected to the chosen metric, and the dataset is padded
 * with a floor and a ceiling value so the line does not touch the chart edges.
 */
module ExerciseHistoryChart {
  import opened Common
  import opened Seqs

  /**
   * A history point; `ms` is the time of its date string and `month` (0-based)
   * and `day` are the local calendar fields `new Date(date)` reports.
   */
  datatype HistoryPoint = HistoryPoint(ms: int, month: nat, day: nat, weight: real, reps: real, volume: real)

  datatype Metric = Weight | Reps | Volume

  function TimeKey(p: HistoryPoint): real { p.ms as real }

  /** `` `${date.getMonth() + 1}/${date.getDate()}` ``. */
  function DateLabel(p: HistoryPoint): string
  {
    NatToString(p.month + 1) + "/" + NatToString(p.day)
  }

  /** Points of different calendar dates get different labels. */
  lemma DateLabelDistinguishes(p: HistoryPoint, q: HistoryPoint)
    requires DateLabel(p) == DateLabel(q)
    ensures p.month == q.month && p.day == q.day
  {
    SplitAtSeparator(NatToString(p.month + 1), NatToString(q.month + 1), NatToString(p.day), NatToString(q.day), '/');
    NatToStringInjective(p.month + 1, q.month + 1);
    NatToStringInjective(p.day, q.day);
  }

  /** `item[metric]`. */
  function MetricOf(metric: Metric): HistoryPoint -> real
  {
    (p: HistoryPoint) => match metric case Weight => p.weight case Reps => p.reps case Volume => p.volume
  }

  datatype Rendered =
    | EmptyState
    | Chart(labels: seq<string>, dataset: seq<real>, decimalPlaces: nat, fromZero: bool)

  /** `[Math.max(0, min - padding), ...values, max + padding]` with `padding = max * 0.1`. */
  function Padded(values: seq<real>): seq<real>
    requires values != []
  {
    var padding := Largest(values) * 0.1;
    [Max(0.0, Smallest(values) - padding)] + values + [Largest(values) + padding]
  }

  function Render(data: Option<seq<HistoryPoint>>, metric: Metric): Rendered
  {
    if data.None? || |data.value| == 0 then EmptyState
    else
      var sorted := SortByKey(data.value, TimeKey);
      Chart(Map(sorted, DateLabel), Padded(Map(sorted, MetricOf(metric))),
            if metric == Reps then 0 else 1, metric == Reps)
  }

  /** Missing or empty data renders the empty state, and only that does. */
  lemma EmptyStateSpec(data: Option<seq<HistoryPoint>>, metric: Metric)
    ensures Render(data, metric) == EmptyState <==> data.None? || data.value == []
  {
  }

  /**
   * The points are a date-sorted permutation of the input; each label is the
   * date of its sorted point and each inner dataset entry is that point's metric,
   * so the dataset has two entries more than there are labels.
   */
  lemma ChartSpec(data: seq<HistoryPoint>, metric: Metric)
    requires data != []
    ensures var r := Render(Some(data), metric);
      var sorted := SortByKey(data, TimeKey);
      && r.Chart?
      && SortedBy(sorted, TimeKey) && multiset(sorted) == multiset(data)
      && |r.labels| == |data| && |r.dataset| == |data| + 2
      && (forall i :: 0 <= i < |data| ==>
            r.labels[i] == DateLabel(sorted[i]) && r.dataset[i + 1] == MetricOf(metric)(sorted[i]))
      && (r.fromZero <==> metric == Reps)
  {
    SortByKeySorted(data, TimeKey);
  }

  /**
   * The floor entry is never negative and the ceiling entry is at least every
   * value when the largest value is not negative.
   */
  lemma PaddingBounds(values: seq<real>)
    requires values != []
    ensures Padded(values)[0] >= 0.0
    ensures Largest(values) >= 0.0 ==>
      forall i :: 0 <= i < |values| ==> values[i] <= Padded(values)[|values| + 1]
    ensures (forall i :: 0 <= i < |values| ==> values[i] >= 0.0) ==> Padded(values)[0] <= Smallest(values)
  {
  }
}
