/** The sleep duration line chart: one point per night, oldest first, in hours. */
module SleepChart {
  import opened Seqs
  import opened SleepData

  datatype Chart = Chart(labels: seq<string>, data: seq<real>)

  function Hours(d: SleepRecord): real
  {
    d.duration / 60.0
  }

  /** `chartData`; the date label format is an input. */
  function ChartOf(data: seq<SleepRecord>, format: int -> string): (r: Chart)
  {
    var sorted := ByStart(data);
    Chart(Map(sorted, (d: SleepRecord) => format(d.startTime)), Map(sorted, Hours))
  }

  /**
   * One label and one value per night; the nights are in start order, each
   * value is its night's duration in hours under its own label, and the values
   * are those of the input, rearranged.
   */
  lemma ChartSpec(data: seq<SleepRecord>, format: int -> string)
    ensures |ChartOf(data, format).labels| == |ChartOf(data, format).data| == |data|
    ensures forall i :: 0 <= i < |data| ==>
      ChartOf(data, format).data[i] * 60.0 == ByStart(data)[i].duration
      && ChartOf(data, format).labels[i] == format(ByStart(data)[i].startTime)
    ensures multiset(ChartOf(data, format).data) == multiset(Map(data, Hours))
  {
    MapSortByKey(data, StartKey, Hours);
  }
}
