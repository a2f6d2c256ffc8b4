/** A night of sleep as the wellness store records it, and the chronological order the sleep charts use. */
module SleepData {
  import opened Seqs

  /**
   * Start and end as ms timestamps; the total duration, the time spent in
   * each phase and awake, in minutes; and the quality score.
   */
  datatype SleepRecord = SleepRecord(
    startTime: int, endTime: int, duration: real,
    deepSleepDuration: real, remSleepDuration: real, lightSleepDuration: real, awakeTime: real,
    quality: real)

  function StartKey(d: SleepRecord): real
  {
    d.startTime as real
  }

  /** `[...data].sort((a, b) => a.startTime - b.startTime)`: a stable sort of a copy, oldest first. */
  function ByStart(data: seq<SleepRecord>): (r: seq<SleepRecord>)
    ensures |r| == |data| && multiset(r) == multiset(data)
    ensures forall i, j :: 0 <= i < j < |r| ==> r[i].startTime <= r[j].startTime
  {
    SortByKeySorted(data, StartKey);
    var r := SortByKey(data, StartKey);
    assert forall i, j :: 0 <= i < j < |r| ==> StartKey(r[i]) <= StartKey(r[j]);
    r
  }
}
