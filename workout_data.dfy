/** The workout records the training components read: sets, exercises and workouts. */
module WorkoutData {
  import opened Common
  import opened Seqs

  /** A set as logged: weight and reps may be missing. */
  datatype WorkoutSet = WorkoutSet(weight: Option<real>, reps: Option<int>, completed: bool)

  /** An exercise of a workout, with its sets. */
  datatype Exercise = Exercise(id: string, name: string, sets: seq<WorkoutSet>)

  /** A workout: completion time (ms), type, recorded duration (minutes) and exercises. */
  datatype Workout = Workout(
    completedAt: Option<int>,
    workoutType: Option<string>,
    duration: Option<int>,
    exercises: seq<Exercise>)

  /** A workout-history entry: its date in ms and the exercises done. */
  datatype HistoryEntry = HistoryEntry(date: int, exercises: seq<Exercise>)

  /** `set.weight || 0`. */
  function WeightOrZero(s: WorkoutSet): real
  {
    if s.weight.Some? then s.weight.value else 0.0
  }

  /** `set.reps || 0`. */
  function RepsOrZero(s: WorkoutSet): int
  {
    if s.reps.Some? then s.reps.value else 0
  }

  function SetVolume(s: WorkoutSet): real
  {
    WeightOrZero(s) * RepsOrZero(s) as real
  }

  /** `calculateVolume`: the sum of weight times reps over the sets, a missing value counting as 0. */
  function Volume(ex: Exercise): real
  {
    SumBy(ex.sets, SetVolume)
  }

  /** `exercises.find((ex) => ex.id === id)`: the first exercise with the id, if any. */
  function FindById(exercises: seq<Exercise>, id: string): (r: Option<Exercise>)
    ensures r.Some? ==> exists i :: 0 <= i < |exercises| && exercises[i] == r.value && r.value.id == id &&
                                   forall j :: 0 <= j < i ==> exercises[j].id != id
    ensures r.None? ==> forall i :: 0 <= i < |exercises| ==> exercises[i].id != id
  {
    if exercises == [] then None
    else if exercises[0].id == id then Some(exercises[0])
    else
      var r := FindById(exercises[1..], id);
      assert forall i :: 0 <= i < |exercises| - 1 ==> exercises[1..][i] == exercises[i + 1];
      if r.Some? then
        var i :| 0 <= i < |exercises| - 1 && exercises[1..][i] == r.value && r.value.id == id &&
                 forall j :: 0 <= j < i ==> exercises[1..][j].id != id;
        assert forall j :: 0 <= j < i + 1 ==> exercises[j].id != id;
        r
      else r
  }

  predicate NonNegativeSet(s: WorkoutSet)
  {
    WeightOrZero(s) >= 0.0 && RepsOrZero(s) >= 0
  }

  /** With no negative weight or reps the volume is not negative, and a set without weight or reps adds nothing. */
  lemma {:induction false} VolumeNonNegative(sets: seq<WorkoutSet>)
    requires forall i :: 0 <= i < |sets| ==> NonNegativeSet(sets[i])
    ensures SumBy(sets, SetVolume) >= 0.0
  {
    if sets != [] {
      VolumeNonNegative(sets[..|sets| - 1]);
      var last := sets[|sets| - 1];
      assert SetVolume(last) >= 0.0 by {
        assert NonNegativeSet(last);
      }
    }
  }

  lemma MissingValueAddsNothing(s: WorkoutSet)
    requires s.weight == None || s.reps == None
    ensures SetVolume(s) == 0.0
  {
  }
}
