/**
 * The per-exercise progress chart: the history is sorted by date, cut to the
 * chosen timeframe and to the entries that contain the exercise, each entry is
 * projected to one metric value, the positive values are plotted, and the series
 * gets a trend and a percentage change.
 *
 * The clock and the `Date` constructor are inputs: `now` is the current time with
 * its local calendar date, and `midnight(y, m, d)` stands for `new Date(y, m, d)`.
 * The utilities `calculateVolume`, `calculateOneRepMax` and `formatDate` are not
 * part of this model; they are the parameters `volume`, `orm` and `format`.
 */
module ProgressChart {
  import opened Common
  import opened Seqs
  import opened WorkoutData

  datatype Metric = Weight | TotalVolume | OneRepMax
  datatype Timeframe = Week | Month | Year | All

  /** The current time in ms and its local calendar date (`getMonth()` is 0-based). */
  datatype Clock = Clock(ms: int, year: int, month: int, day: int)

  const MsPerWeek: int := 7 * 24 * 60 * 60 * 1000

  /** The earliest date kept: none for "all". */
  function Cutoff(timeframe: Timeframe, now: Clock, midnight: (int, int, int) -> int): Option<int>
  {
    match timeframe
    case Week => Some(now.ms - MsPerWeek)
    case Month => Some(midnight(now.year, now.month - 1, now.day))
    case Year => Some(midnight(now.year - 1, now.month, now.day))
    case All => None
  }

  function DateKey(h: HistoryEntry): real { h.date as real }

  function OnOrAfter(cutoff: Option<int>): HistoryEntry -> bool
  {
    (h: HistoryEntry) => cutoff.None? || h.date >= cutoff.value
  }

  function Contains(id: string): HistoryEntry -> bool
  {
    (h: HistoryEntry) => FindById(h.exercises, id).Some?
  }

  /** `filteredData`: sorted by date (on a copy), cut to the timeframe, then to entries with the exercise. */
  function FilteredData(history: Option<seq<HistoryEntry>>, id: string, timeframe: Timeframe,
                        now: Clock, midnight: (int, int, int) -> int): seq<HistoryEntry>
  {
    if history.None? || |history.value| == 0 then []
    else Filter(Filter(SortByKey(history.value, DateKey), OnOrAfter(Cutoff(timeframe, now, midnight))), Contains(id))
  }

  /** An entry is charted when it is within the timeframe and contains the exercise. */
  function Kept(cutoff: Option<int>, id: string): HistoryEntry -> bool
  {
    (h: HistoryEntry) => (cutoff.None? || h.date >= cutoff.value) && FindById(h.exercises, id).Some?
  }

  lemma FilteredDataSorted(history: Option<seq<HistoryEntry>>, id: string, timeframe: Timeframe,
                           now: Clock, midnight: (int, int, int) -> int)
    ensures SortedBy(FilteredData(history, id, timeframe, now, midnight), DateKey)
  {
    if history.Some? && |history.value| > 0 {
      var sorted := SortByKey(history.value, DateKey);
      var cut := OnOrAfter(Cutoff(timeframe, now, midnight));
      SortByKeySorted(history.value, DateKey);
      FilterSorted(sorted, cut, DateKey);
      FilterSorted(Filter(sorted, cut), Contains(id), DateKey);
    }
  }

  lemma FilteredDataMember(history: Option<seq<HistoryEntry>>, id: string, timeframe: Timeframe,
                           now: Clock, midnight: (int, int, int) -> int, h: HistoryEntry)
    ensures h in FilteredData(history, id, timeframe, now, midnight) <==>
      && history.Some? && h in history.value
      && (Cutoff(timeframe, now, midnight).Some? ==> h.date >= Cutoff(timeframe, now, midnight).value)
      && exists k :: 0 <= k < |h.exercises| && h.exercises[k].id == id
  {
    if history.Some? {
      var cutoff := Cutoff(timeframe, now, midnight);
      var filtered := FilteredData(history, id, timeframe, now, midnight);
      FilteredDataCounts(history, id, timeframe, now, midnight);
      FilterMultiplicity(history.value, Kept(cutoff, id), h);
      assert h in filtered <==> multiset(filtered)[h] > 0;
      assert h in history.value <==> multiset(history.value)[h] > 0;
      assert Kept(cutoff, id)(h) <==> (cutoff.None? || h.date >= cutoff.value) && FindById(h.exercises, id).Some?;
    }
  }

  lemma FilteredDataCounts(history: Option<seq<HistoryEntry>>, id: string, timeframe: Timeframe,
                           now: Clock, midnight: (int, int, int) -> int)
    ensures history.Some? ==>
      multiset(FilteredData(history, id, timeframe, now, midnight)) ==
      multiset(Filter(history.value, Kept(Cutoff(timeframe, now, midnight), id)))
  {
    if history.Some? {
      var kept := Kept(Cutoff(timeframe, now, midnight), id);
      var sorted := SortByKey(history.value, DateKey);
      var cut := OnOrAfter(Cutoff(timeframe, now, midnight));
      var filtered := FilteredData(history, id, timeframe, now, midnight);
      if |history.value| > 0 {
        assert filtered == Filter(Filter(sorted, cut), Contains(id));
      }
      forall x ensures multiset(filtered)[x] == multiset(Filter(history.value, kept))[x] {
        FilterMultiplicity(history.value, kept, x);
        if |history.value| > 0 {
          FilterMultiplicity(Filter(sorted, cut), Contains(id), x);
          FilterMultiplicity(sorted, cut, x);
          assert kept(x) == (cut(x) && Contains(id)(x));
        }
      }
      assert multiset(filtered) == multiset(Filter(history.value, kept));
    }
  }

  /**
   * The filtered history is sorted by date and holds exactly the entries of the
   * history that are within the timeframe and contain an exercise with the id,
   * each as often as it occurs in the history.
   */
  lemma FilteredDataSpec(history: Option<seq<HistoryEntry>>, id: string, timeframe: Timeframe,
                         now: Clock, midnight: (int, int, int) -> int, h: HistoryEntry)
    ensures SortedBy(FilteredData(history, id, timeframe, now, midnight), DateKey)
    ensures h in FilteredData(history, id, timeframe, now, midnight) <==>
      && history.Some? && h in history.value
      && (Cutoff(timeframe, now, midnight).Some? ==> h.date >= Cutoff(timeframe, now, midnight).value)
      && exists k :: 0 <= k < |h.exercises| && h.exercises[k].id == id
    ensures history.Some? ==>
      multiset(FilteredData(history, id, timeframe, now, midnight)) ==
      multiset(Filter(history.value, Kept(Cutoff(timeframe, now, midnight), id)))
  {
    FilteredDataSorted(history, id, timeframe, now, midnight);
    FilteredDataMember(history, id, timeframe, now, midnight, h);
    FilteredDataCounts(history, id, timeframe, now, midnight);
  }

  /** An empty or missing history yields no entries. */
  lemma EmptyHistoryHasNoData(history: Option<seq<HistoryEntry>>, id: string, timeframe: Timeframe,
                              now: Clock, midnight: (int, int, int) -> int)
    requires history.None? || history.value == []
    ensures FilteredData(history, id, timeframe, now, midnight) == []
  {
  }

  // ---------------------------------------------------------------------------
  // Metric values

  function NegatedEstimate(orm: WorkoutSet -> real): WorkoutSet -> real
  {
    (s: WorkoutSet) => -orm(s)
  }

  /** The estimate of the first set after sorting a copy by descending estimate, or 0 without sets. */
  function BestSetEstimate(sets: seq<WorkoutSet>, orm: WorkoutSet -> real): real
  {
    if sets == [] then 0.0 else orm(SortByKey(sets, NegatedEstimate(orm))[0])
  }

  /** The best set's estimate is the largest estimate of any set. */
  lemma BestSetIsLargest(sets: seq<WorkoutSet>, orm: WorkoutSet -> real)
    requires sets != []
    ensures BestSetEstimate(sets, orm) == Largest(Map(sets, orm))
  {
    var sorted := SortByKey(sets, NegatedEstimate(orm));
    var estimates := Map(sets, orm);
    SortByKeySorted(sets, NegatedEstimate(orm));
    var best := sorted[0];
    assert best in multiset(sets) by {
      assert best in multiset(sorted);
    }
    var b :| 0 <= b < |sets| && sets[b] == best;
    assert estimates[b] == orm(best);
    var m :| 0 <= m < |estimates| && estimates[m] == Largest(estimates);
    assert sets[m] in multiset(sorted);
    var k :| 0 <= k < |sorted| && sorted[k] == sets[m];
    if k > 0 {
      assert NegatedEstimate(orm)(sorted[0]) <= NegatedEstimate(orm)(sorted[k]);
    }
  }

  /** The value one entry's exercise contributes. */
  function MetricValue(metric: Metric, ex: Exercise, volume: seq<WorkoutSet> -> real, orm: WorkoutSet -> real): JsNumber
  {
    match metric
    case Weight => MaxOf(Map(ex.sets, WeightOrZero))
    case TotalVolume => Finite(volume(ex.sets))
    case OneRepMax => Finite(BestSetEstimate(ex.sets, orm))
  }

  /** `value > 0`: `-Infinity` from `Math.max()` of no sets is not plotted. */
  predicate IsPositive(v: JsNumber)
  {
    v.Finite? && v.value > 0.0
  }

  /** The value of an entry, `None` when it lacks the exercise. */
  function EntryValue(h: HistoryEntry, id: string, metric: Metric, volume: seq<WorkoutSet> -> real,
                      orm: WorkoutSet -> real): Option<JsNumber>
  {
    var ex := FindById(h.exercises, id);
    if ex.None? then None else Some(MetricValue(metric, ex.value, volume, orm))
  }

  function IsPlotted(id: string, metric: Metric, volume: seq<WorkoutSet> -> real, orm: WorkoutSet -> real): HistoryEntry -> bool
  {
    (h: HistoryEntry) => EntryValue(h, id, metric, volume, orm).Some? && IsPositive(EntryValue(h, id, metric, volume, orm).value)
  }

  /** The weight metric is the heaviest set of the exercise, and an exercise without sets is not plotted. */
  lemma WeightIsHeaviestSet(ex: Exercise, volume: seq<WorkoutSet> -> real, orm: WorkoutSet -> real)
    ensures ex.sets == [] ==> !IsPositive(MetricValue(Weight, ex, volume, orm))
    ensures ex.sets != [] ==>
      && MetricValue(Weight, ex, volume, orm).Finite?
      && (forall i :: 0 <= i < |ex.sets| ==> WeightOrZero(ex.sets[i]) <= MetricValue(Weight, ex, volume, orm).value)
      && exists i :: 0 <= i < |ex.sets| && WeightOrZero(ex.sets[i]) == MetricValue(Weight, ex, volume, orm).value
  {
    if ex.sets != [] {
      var ws := Map(ex.sets, WeightOrZero);
      var i :| 0 <= i < |ws| && ws[i] == Largest(ws);
    }
  }

  // ---------------------------------------------------------------------------
  // `chartData`

  datatype Series = Series(labels: seq<string>, data: seq<real>)

  /** The labels and data the `forEach` pushes for the given entries. */
  function ChartSeries(entries: seq<HistoryEntry>, id: string, metric: Metric, volume: seq<WorkoutSet> -> real,
                       orm: WorkoutSet -> real, format: int -> string): Series
  {
    if entries == [] then Series([], [])
    else
      var r := ChartSeries(entries[..|entries| - 1], id, metric, volume, orm, format);
      var h := entries[|entries| - 1];
      var v := EntryValue(h, id, metric, volume, orm);
      if v.Some? && IsPositive(v.value) then Series(r.labels + [format(h.date)], r.data + [v.value.value])
      else r
  }

  /** The `forEach` over the filtered entries that pushes a label and a value for each positive value. */
  method BuildChartData(entries: seq<HistoryEntry>, id: string, metric: Metric, volume: seq<WorkoutSet> -> real,
                        orm: WorkoutSet -> real, format: int -> string) returns (labels: seq<string>, data: seq<real>)
    ensures Series(labels, data) == ChartSeries(entries, id, metric, volume, orm, format)
  {
    labels, data := [], [];
    for i := 0 to |entries|
      invariant Series(labels, data) == ChartSeries(entries[..i], id, metric, volume, orm, format)
    {
      assert entries[..i + 1][..i] == entries[..i];
      var ex := FindById(entries[i].exercises, id);
      if ex.Some? {
        var value := MetricValue(metric, ex.value, volume, orm);
        if IsPositive(value) {
          labels := labels + [format(entries[i].date)];
          data := data + [value.value];
        }
      }
    }
    assert entries[..|entries|] == entries;
  }

  /**
   * One label and one value per entry whose value is positive, in entry order:
   * labels and data have equal length and every plotted value is positive.
   */
  lemma {:induction false} ChartSeriesSpec(entries: seq<HistoryEntry>, id: string, metric: Metric,
                                           volume: seq<WorkoutSet> -> real, orm: WorkoutSet -> real, format: int -> string)
    ensures var kept := Filter(entries, IsPlotted(id, metric, volume, orm));
      var r := ChartSeries(entries, id, metric, volume, orm, format);
      && |r.labels| == |kept| && |r.data| == |kept|
      && forall i :: 0 <= i < |kept| ==>
           && r.labels[i] == format(kept[i].date)
           && EntryValue(kept[i], id, metric, volume, orm) == Some(Finite(r.data[i]))
           && r.data[i] > 0.0
  {
    if entries != [] {
      var prefix := entries[..|entries| - 1];
      var h := entries[|entries| - 1];
      assert entries == prefix + [h];
      ChartSeriesSpec(prefix, id, metric, volume, orm, format);
      FilterSnoc(prefix, h, IsPlotted(id, metric, volume, orm));
    }
  }

  // ---------------------------------------------------------------------------
  // `trend` and `percentageChange`

  datatype Trend = Positive | Negative | Neutral

  function TrendOf(data: seq<real>): Trend
  {
    if |data| < 2 then Neutral
    else if data[|data| - 1] > data[0] then Positive
    else if data[|data| - 1] < data[0] then Negative
    else Neutral
  }

  function PercentageChange(data: seq<real>): real
  {
    if |data| < 2 then 0.0
    else if data[0] == 0.0 then 0.0
    else (data[|data| - 1] - data[0]) / data[0] * 100.0
  }

  /**
   * For a series starting with a positive value (every plotted series), the
   * percentage change is positive exactly for a positive trend and negative
   * exactly for a negative one.
   */
  lemma TrendMatchesChange(data: seq<real>)
    requires |data| >= 2 ==> data[0] > 0.0
    ensures TrendOf(data) == Positive <==> PercentageChange(data) > 0.0
    ensures TrendOf(data) == Negative <==> PercentageChange(data) < 0.0
    ensures TrendOf(data) == Neutral <==> PercentageChange(data) == 0.0
  {
    if |data| >= 2 {
      PercentOfPositive(data[|data| - 1] - data[0], data[0]);
    }
  }
}
