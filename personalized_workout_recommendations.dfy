/**
 * Workout suggestions for the current recovery status: three workout types
 * per status, each with its icon and colour; picking one reports its type.
 */
module PersonalizedWorkoutRecommendations {
  import opened Common
  import opened Seqs

  /** A suggested workout (title and description are translations and left out). */
  datatype Recommendation = Recommendation(workoutType: string, icon: string, color: ThemeColor)

  /** `getRecommendedWorkouts`. */
  function Recommended(status: Status): (r: seq<Recommendation>)
    ensures |r| == 3
  {
    match status
    case Poor => [
      Recommendation("mobility", "move", InfoColor),
      Recommendation("light_cardio", "heart", SuccessColor),
      Recommendation("recovery", "refresh-cw", PrimaryColor)]
    case Fair => [
      Recommendation("moderate_strength", "activity", WarningColor),
      Recommendation("cardio", "heart", SuccessColor),
      Recommendation("mobility", "move", InfoColor)]
    case Good => [
      Recommendation("strength", "trending-up", PrimaryColor),
      Recommendation("hiit", "zap", WarningColor),
      Recommendation("cardio", "heart", SuccessColor)]
    case Excellent => [
      Recommendation("high_intensity", "zap", ErrorColor),
      Recommendation("strength", "trending-up", PrimaryColor),
      Recommendation("hiit", "zap", WarningColor)]
  }

  /** The workout types suggested for a status, in the order they are listed. */
  function Types(status: Status): (r: seq<string>)
    ensures |r| == 3
    ensures forall i :: 0 <= i < 3 ==> r[i] == Recommended(status)[i].workoutType
  {
    Map(Recommended(status), (x: Recommendation) => x.workoutType)
  }

  /** The lists per status, each of three different types. */
  lemma RecommendedSpec(status: Status)
    ensures status == Poor ==> Types(status) == ["mobility", "light_cardio", "recovery"]
    ensures status == Fair ==> Types(status) == ["moderate_strength", "cardio", "mobility"]
    ensures status == Good ==> Types(status) == ["strength", "hiit", "cardio"]
    ensures status == Excellent ==> Types(status) == ["high_intensity", "strength", "hiit"]
    ensures NoDup(Types(status))
  {
    var t := Types(status);
    assert t == [t[0], t[1], t[2]];
  }

  /**
   * Intensity follows recovery: poor recovery never gets strength, HIIT or
   * high-intensity work, and only excellent recovery gets high intensity.
   */
  lemma IntensityFollowsRecovery(status: Status)
    ensures status == Poor ==>
      "strength" !in Types(status) && "hiit" !in Types(status) && "high_intensity" !in Types(status)
    ensures "high_intensity" in Types(status) <==> status == Excellent
  {
    RecommendedSpec(status);
  }

  /** Pressing the item at `index` reports its type, when a handler is given. */
  function Select(status: Status, index: nat, hasHandler: bool): (r: Option<string>)
    ensures r.Some? <==> hasHandler && index < 3
    ensures r.Some? ==> r.value in Types(status)
  {
    if hasHandler && index < 3 then Some(Recommended(status)[index].workoutType) else None
  }

  /** `getStatusColor`: the colour of the status badge. */
  function StatusColor(status: Status): (r: ThemeColor)
  {
    match status
    case Poor => ErrorColor
    case Fair => WarningColor
    case Good => SuccessColor
    case Excellent => PrimaryColor
  }

  /** Every status has its own badge colour. */
  lemma StatusColorInjective(s: Status, t: Status)
    ensures StatusColor(s) == StatusColor(t) <==> s == t
  {
  }
}
