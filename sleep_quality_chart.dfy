/** The sleep quality line chart: one point per night, oldest first. */
module SleepQualityChart {
  import opened Seqs
  import opened SleepData

  datatype Chart = Chart(labels: seq<string>, data: seq<real>)

  function Quality(d: SleepRecord): real
  {
    d.quality
  }

  /** `chartData`; the date label format is an input. */
  function ChartOf(data: seq<SleepRecord>, format: int -> string): (r: Chart)
  {
    var sorted := ByStart(data);
    Chart(Map(sorted, (d: SleepRecord) => format(d.startTime)), Map(sorted, Quality))
  }

  /**
   * One label and one value per night; each value is its night's quality,
   * unchanged, in start order, and the values are the input's, rearranged.
   */
  lemma ChartSpec(data: seq<SleepRecord>, format: int -> string)
    ensures |ChartOf(data, format).labels| == |ChartOf(data, format).data| == |data|
    ensures forall i :: 0 <= i < |data| ==>
      ChartOf(data, format).data[i] == ByStart(data)[i].quality
      && ChartOf(data, format).labels[i] == format(ByStart(data)[i].startTime)
    ensures forall i, j :: 0 <= i < j < |data| ==> ByStart(data)[i].startTime <= ByStart(data)[j].startTime
    ensures multiset(ChartOf(data, format).data) == multiset(Map(data, Quality))
  {
    MapSortByKey(data, StartKey, Quality);
  }
}
