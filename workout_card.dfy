/**
 * The workout card: the type icon and colour, the estimated duration and a
 * preview of the first exercises.
 */
module WorkoutCard {
  import opened Common
  import opened Text
  import opened WorkoutData

  /** The workout type in lower case, `strength` when it is missing or empty. */
  function TypeKey(workoutType: Option<string>): (r: string)
    ensures r != []
    ensures workoutType.Some? && workoutType.value != [] ==> r == Lower(workoutType.value)
    ensures workoutType.None? || workoutType.value == [] ==> r == "strength"
  {
    if workoutType.Some? && Lower(workoutType.value) != [] then Lower(workoutType.value) else "strength"
  }

  datatype Icon = Heart | Zap | Move | RefreshCw | TrendingUp

  /** `getWorkoutTypeIcon`. */
  function TypeIcon(workoutType: Option<string>): (r: Icon)
  {
    match TypeKey(workoutType)
    case "cardio" => Heart
    case "hiit" => Zap
    case "mobility" => Move
    case "recovery" => RefreshCw
    case _ => TrendingUp
  }

  /** `getWorkoutTypeColor`. */
  function TypeColor(workoutType: Option<string>): (r: ThemeColor)
  {
    match TypeKey(workoutType)
    case "cardio" => SuccessColor
    case "hiit" => WarningColor
    case "mobility" => InfoColor
    case _ => PrimaryColor
  }

  /**
   * Each of the four named types has its own icon; every other type, and a
   * missing one, is shown as strength. Strength and recovery share the
   * primary colour.
   */
  lemma TypeIconSpec(workoutType: Option<string>)
    ensures TypeIcon(workoutType) == Heart <==> TypeKey(workoutType) == "cardio"
    ensures TypeIcon(workoutType) == Zap <==> TypeKey(workoutType) == "hiit"
    ensures TypeIcon(workoutType) == Move <==> TypeKey(workoutType) == "mobility"
    ensures TypeIcon(workoutType) == RefreshCw <==> TypeKey(workoutType) == "recovery"
    ensures TypeIcon(workoutType) == TrendingUp <==> TypeKey(workoutType) !in {"cardio", "hiit", "mobility", "recovery"}
    ensures TypeColor(workoutType) == PrimaryColor <==> TypeIcon(workoutType) in {RefreshCw, TrendingUp}
    ensures workoutType.None? ==> TypeIcon(workoutType) == TrendingUp
  {
  }

  /** The type is matched without regard to letter case. */
  lemma TypeIsCaseInsensitive(t: string)
    ensures TypeKey(Some(Lower(t))) == TypeKey(Some(t))
    ensures TypeIcon(Some(Lower(t))) == TypeIcon(Some(t))
  {
    LowerIdempotent(t);
  }

  /** The sets over all exercises (the `reduce` of the estimate). */
  function TotalSets(exercises: seq<Exercise>): (r: nat)
    ensures exercises == [] ==> r == 0
  {
    if exercises == [] then 0 else TotalSets(exercises[..|exercises| - 1]) + |exercises[|exercises| - 1].sets|
  }

  /** `calculateEstimatedDuration`: three minutes per set and one between exercises. */
  function EstimatedDuration(exercises: seq<Exercise>): (r: int)
    ensures exercises == [] ==> r == -1
    ensures exercises != [] ==> r >= 3 * TotalSets(exercises)
  {
    TotalSets(exercises) * 3 + (|exercises| - 1)
  }

  /** One more exercise adds three minutes per set plus one minute of changeover. */
  lemma EstimateSnoc(exercises: seq<Exercise>, e: Exercise)
    ensures EstimatedDuration(exercises + [e]) == EstimatedDuration(exercises) + 3 * |e.sets| + 1
  {
    assert (exercises + [e])[..|exercises|] == exercises;
  }

  /** `workout.duration || estimate`: a recorded duration wins unless it is 0. */
  function Duration(w: Workout): (r: int)
    ensures w.duration.Some? && w.duration.value != 0 ==> r == w.duration.value
    ensures w.duration.None? || w.duration.value == 0 ==> r == EstimatedDuration(w.exercises)
  {
    if w.duration.Some? && w.duration.value != 0 then w.duration.value else EstimatedDuration(w.exercises)
  }

  /** The preview: the first three exercises, and the number of the others when there are any. */
  datatype Preview = Preview(shown: seq<Exercise>, more: Option<nat>)

  function PreviewOf(exercises: seq<Exercise>): (r: Preview)
    ensures |r.shown| <= 3 && r.shown <= exercises
    ensures r.more.Some? <==> |exercises| > 3
    ensures |r.shown| + (if r.more.Some? then r.more.value else 0) == |exercises|
  {
    var shown := if |exercises| <= 3 then exercises else exercises[..3];
    Preview(shown, if |exercises| > 3 then Some(|exercises| - 3) else None)
  }

  /** A workout of at most three exercises is previewed in full. */
  lemma ShortWorkoutShownInFull(exercises: seq<Exercise>)
    requires |exercises| <= 3
    ensures PreviewOf(exercises) == Preview(exercises, None)
  {
  }
}
