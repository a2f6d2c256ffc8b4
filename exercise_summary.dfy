/**
 * The per-exercise summary card of a finished workout: set, rep and volume
 * totals, the heaviest weight and most reps, the estimated one-rep max, and the
 * change in volume against the same exercise in the previous workout.
 *
 * The one-rep-max estimator lives in another file; it is a parameter here.
 */
module ExerciseSummary {
  import opened Common
  import opened Seqs
  import opened WorkoutData

  datatype Stats = Stats(
    totalSets: int,
    totalReps: int,
    totalVolume: real,
    highestWeight: JsNumber,
    highestReps: JsNumber,
    oneRepMax: real,
    volumeChange: real,
    volumePercentage: real,
    hasPrevious: bool)

  function RepsOf(s: WorkoutSet): real { RepsOrZero(s) as real }

  /** `calculateStats`, given the one-rep-max estimator. */
  function CalculateStats(ex: Exercise, previous: Option<Exercise>, oneRepMax: (real, int) -> real): Stats
  {
    var (change, percentage) := VolumeChange(ex, previous);
    Stats(
      |ex.sets|,
      SumIntOf(ex.sets),
      Volume(ex),
      MaxOf(Map(ex.sets, WeightOrZero)),
      MaxOf(Map(ex.sets, RepsOf)),
      Largest(Map(ex.sets, s => oneRepMax(WeightOrZero(s), RepsOrZero(s))) + [0.0]),
      change,
      percentage,
      previous.Some?)
  }

  /** The volume change against the previous exercise, and that change in percent. */
  function VolumeChange(ex: Exercise, previous: Option<Exercise>): (real, real)
  {
    if previous.None? then (0.0, 0.0)
    else
      var previousVolume := Volume(previous.value);
      var change := Volume(ex) - previousVolume;
      (change, if previousVolume > 0.0 then change / previousVolume * 100.0 else 0.0)
  }

  /** The rep total, missing reps counting as 0. */
  function SumIntOf(sets: seq<WorkoutSet>): int
  {
    if sets == [] then 0 else SumIntOf(sets[..|sets| - 1]) + RepsOrZero(sets[|sets| - 1])
  }

  /**
   * The totals: sets are counted, reps and volume summed with missing values as 0.
   * For a non-empty exercise the highest weight and reps bound every set and are
   * reached by one; an empty exercise gives `-Infinity` for both.
   */
  lemma StatsTotalsAndMaxima(ex: Exercise, previous: Option<Exercise>, orm: (real, int) -> real)
    ensures var r := CalculateStats(ex, previous, orm);
      && r.totalSets == |ex.sets|
      && r.totalVolume == SumBy(ex.sets, SetVolume)
      && r.totalReps as real == SumBy(ex.sets, RepsOf)
      && (ex.sets == [] ==> r.highestWeight == NegInfinity && r.highestReps == NegInfinity)
      && (ex.sets != [] ==>
        && r.highestWeight.Finite? && r.highestReps.Finite?
        && (forall i :: 0 <= i < |ex.sets| ==> WeightOrZero(ex.sets[i]) <= r.highestWeight.value)
        && (exists i :: 0 <= i < |ex.sets| && WeightOrZero(ex.sets[i]) == r.highestWeight.value)
        && (forall i :: 0 <= i < |ex.sets| ==> RepsOrZero(ex.sets[i]) as real <= r.highestReps.value)
        && (exists i :: 0 <= i < |ex.sets| && RepsOrZero(ex.sets[i]) as real == r.highestReps.value))
  {
    SumIntOfIsSum(ex.sets);
    var r := CalculateStats(ex, previous, orm);
    if ex.sets != [] {
      var ws := Map(ex.sets, WeightOrZero);
      var i :| 0 <= i < |ws| && ws[i] == Largest(ws);
      assert WeightOrZero(ex.sets[i]) == r.highestWeight.value;
      var rs := Map(ex.sets, RepsOf);
      var j :| 0 <= j < |rs| && rs[j] == Largest(rs);
      assert RepsOrZero(ex.sets[j]) as real == r.highestReps.value;
    }
  }

  lemma {:induction false} SumIntOfIsSum(sets: seq<WorkoutSet>)
    ensures SumIntOf(sets) as real == SumBy(sets, RepsOf)
  {
    if sets != [] {
      SumIntOfIsSum(sets[..|sets| - 1]);
    }
  }

  /** The one-rep max is the largest per-set estimate, and never below 0, even without sets. */
  lemma OneRepMaxBounds(ex: Exercise, previous: Option<Exercise>, orm: (real, int) -> real)
    ensures var r := CalculateStats(ex, previous, orm);
      && r.oneRepMax >= 0.0
      && (forall i :: 0 <= i < |ex.sets| ==> orm(WeightOrZero(ex.sets[i]), RepsOrZero(ex.sets[i])) <= r.oneRepMax)
      && (r.oneRepMax == 0.0 || exists i :: 0 <= i < |ex.sets| && orm(WeightOrZero(ex.sets[i]), RepsOrZero(ex.sets[i])) == r.oneRepMax)
  {
    var es := Map(ex.sets, s => orm(WeightOrZero(s), RepsOrZero(s))) + [0.0];
    assert es[|es| - 1] == 0.0;
    forall i | 0 <= i < |ex.sets| ensures orm(WeightOrZero(ex.sets[i]), RepsOrZero(ex.sets[i])) <= Largest(es) {
      assert es[i] == orm(WeightOrZero(ex.sets[i]), RepsOrZero(ex.sets[i]));
    }
    var k :| 0 <= k < |es| && es[k] == Largest(es);
    if k < |ex.sets| {
      assert es[k] == orm(WeightOrZero(ex.sets[k]), RepsOrZero(ex.sets[k]));
    }
  }

  /**
   * Against a previous exercise the change is the difference of the volumes and the
   * percentage is that change relative to a positive previous volume (0 otherwise);
   * without one, both are 0 and there is no previous.
   */
  lemma VolumeComparison(ex: Exercise, previous: Option<Exercise>, orm: (real, int) -> real)
    ensures var r := CalculateStats(ex, previous, orm);
      && r.hasPrevious == previous.Some?
      && (previous == None ==> r.volumeChange == 0.0 && r.volumePercentage == 0.0)
      && (previous.Some? ==> r.volumeChange == Volume(ex) - Volume(previous.value))
      && (previous.Some? && Volume(previous.value) > 0.0 ==>
            r.volumePercentage * Volume(previous.value) == r.volumeChange * 100.0)
      && (previous.Some? && Volume(previous.value) <= 0.0 ==> r.volumePercentage == 0.0)
      && (r.volumePercentage > 0.0 <==> previous.Some? && Volume(previous.value) > 0.0 && Volume(ex) > Volume(previous.value))
  {
    var r := CalculateStats(ex, previous, orm);
    assert (r.volumeChange, r.volumePercentage) == VolumeChange(ex, previous);
    if previous.Some? && Volume(previous.value) > 0.0 {
      PercentOfPositive(Volume(ex) - Volume(previous.value), Volume(previous.value));
    }
  }
}
