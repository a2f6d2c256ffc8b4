/**
 * The exercise tracker: the sets of one exercise worked through one at a
 * time, recovery-dependent tips and weight advice, and the RPE question once
 * every set is done.
 */
module ExerciseTracker {
  import opened Common
  import opened WorkoutData

  /** The parts of an exercise the tracker reads. */
  datatype TrackedExercise = TrackedExercise(category: string, targetMuscle: string, sets: seq<WorkoutSet>)

  /** The sets as loaded from the exercise: every one not completed yet. */
  function Loaded(sets: seq<WorkoutSet>): (r: seq<WorkoutSet>)
    ensures |r| == |sets|
    ensures forall i :: 0 <= i < |r| ==> !r[i].completed
    ensures forall i :: 0 <= i < |r| ==> r[i].weight == sets[i].weight && r[i].reps == sets[i].reps
  {
    seq(|sets|, i requires 0 <= i < |sets| => sets[i].(completed := false))
  }

  /**
   * The list after set `setIndex` is reported done: that set is replaced by the
   * reported values marked completed and every other set is kept. An index
   * outside the list replaces nothing.
   */
  function WithSetCompleted(sets: seq<WorkoutSet>, setIndex: nat, updated: WorkoutSet): (r: seq<WorkoutSet>)
    ensures |r| == |sets|
    ensures setIndex < |sets| ==> r[setIndex] == updated.(completed := true)
    ensures forall i :: 0 <= i < |sets| && i != setIndex ==> r[i] == sets[i]
  {
    seq(|sets|, i requires 0 <= i < |sets| => if i == setIndex then updated.(completed := true) else sets[i])
  }

  /** The set after `setIndex` becomes the active one, unless `setIndex` is the last set. */
  function NextSetIndex(sets: seq<WorkoutSet>, setIndex: nat, current: nat): (r: nat)
    ensures setIndex + 1 < |sets| ==> r == setIndex + 1 && r < |sets|
    ensures setIndex + 1 >= |sets| ==> r == current
  {
    if setIndex < |sets| - 1 then setIndex + 1 else current
  }

  /** The completion panel (RPE question and complete button) is shown. */
  predicate ShowsCompletion(sets: seq<WorkoutSet>)
  {
    |sets| > 0 && forall i :: 0 <= i < |sets| ==> sets[i].completed
  }

  /** Right after loading, the completion panel is hidden. */
  lemma LoadedHidesCompletion(sets: seq<WorkoutSet>)
    ensures !ShowsCompletion(Loaded(sets))
  {
    if |sets| > 0 {
      assert !Loaded(sets)[0].completed;
    }
  }

  /**
   * Completing a set shows the completion panel exactly when the list is not
   * empty and every other set was already completed.
   */
  lemma CompletionAfterSet(sets: seq<WorkoutSet>, setIndex: nat, updated: WorkoutSet)
    ensures ShowsCompletion(WithSetCompleted(sets, setIndex, updated)) <==>
      |sets| > 0 && forall i :: 0 <= i < |sets| && i != setIndex ==> sets[i].completed
  {
    var r := WithSetCompleted(sets, setIndex, updated);
    if |sets| > 0 && forall i :: 0 <= i < |sets| && i != setIndex ==> sets[i].completed {
      forall i | 0 <= i < |r| ensures r[i].completed {
        if i != setIndex {
          assert r[i] == sets[i];
        }
      }
    }
  }

  /** Completing sets never un-completes another set. */
  lemma CompletionIsMonotone(sets: seq<WorkoutSet>, setIndex: nat, updated: WorkoutSet, i: nat)
    requires i < |sets| && sets[i].completed
    ensures WithSetCompleted(sets, setIndex, updated)[i].completed
  {
  }

  /** The tips shown for the recovery status (their texts come from translations). */
  datatype Tip = ReducedWeight | FocusForm | CompoundCaution | ModerateIntensity | ListenToBody
               | PushHarder | ProgressiveOverload | LowerBackCaution

  /**
   * `getWellnessTips`: builds the tip list for the recovery status, the
   * exercise category and its target muscle.
   */
  method WellnessTips(status: Option<Status>, ex: TrackedExercise) returns (tips: seq<Tip>)
    ensures status.None? ==> tips == []
    ensures status == Some(Poor) ==>
      |tips| == 2 + (if ex.category == "compound" then 1 else 0) + (if ex.targetMuscle == "lower_back" then 1 else 0)
    ensures status == Some(Poor) ==> tips[..2] == [ReducedWeight, FocusForm]
    ensures status == Some(Poor) ==>
      tips == [ReducedWeight, FocusForm]
              + (if ex.category == "compound" then [CompoundCaution] else [])
              + (if ex.targetMuscle == "lower_back" then [LowerBackCaution] else [])
    ensures status == Some(Fair) ==> tips == [ModerateIntensity, ListenToBody]
    ensures status == Some(Excellent) ==> tips == [PushHarder, ProgressiveOverload]
    ensures status == Some(Good) ==> tips == []
    ensures CompoundCaution in tips <==> status == Some(Poor) && ex.category == "compound"
    ensures LowerBackCaution in tips <==> status == Some(Poor) && ex.targetMuscle == "lower_back"
  {
    if status.None? {
      return [];
    }
    tips := [];
    if status.value == Poor {
      tips := tips + [ReducedWeight];
      tips := tips + [FocusForm];
      if ex.category == "compound" {
        tips := tips + [CompoundCaution];
      }
    } else if status.value == Fair {
      tips := tips + [ModerateIntensity];
      tips := tips + [ListenToBody];
    } else if status.value == Excellent {
      tips := tips + [PushHarder];
      tips := tips + [ProgressiveOverload];
    }
    if ex.targetMuscle == "lower_back" && status.value == Poor {
      tips := tips + [LowerBackCaution];
    }
  }

  /** The advised weight change in percent and the colour it is shown in. */
  datatype Adjustment = Adjustment(percent: int, color: ThemeColor)

  /** `getWeightAdjustment`. */
  function WeightAdjustment(status: Option<Status>): (r: Option<Adjustment>)
    ensures r.Some? <==> status.Some? && status.value != Good
    ensures r.Some? ==> (r.value.percent > 0 <==> status.value == Excellent)
    ensures r.Some? ==> -15 <= r.value.percent <= 5
  {
    match status
    case None => None
    case Some(Poor) => Some(Adjustment(-15, ErrorColor))
    case Some(Fair) => Some(Adjustment(-5, WarningColor))
    case Some(Excellent) => Some(Adjustment(5, SuccessColor))
    case Some(Good) => None
  }

  /** The worse the recovery, the larger the advised reduction. */
  lemma AdjustmentFollowsRecovery()
    ensures WeightAdjustment(Some(Poor)).value.percent < WeightAdjustment(Some(Fair)).value.percent
            < 0 < WeightAdjustment(Some(Excellent)).value.percent
    ensures WeightAdjustment(Some(Poor)).value.color == ErrorColor
    ensures WeightAdjustment(Some(Fair)).value.color == WarningColor
    ensures WeightAdjustment(Some(Excellent)).value.color == SuccessColor
  {
  }

  /** The advice text: a plus sign for an increase, then the percentage. */
  function AdjustmentText(a: Adjustment): (r: string)
    ensures |r| >= 2 && r[|r| - 1] == '%'
    ensures r[0] == '+' <==> a.percent > 0
    ensures r[0] == '-' <==> a.percent < 0
  {
    (if a.percent > 0 then "+" else "") + IntToString(a.percent) + "%"
  }

  /** The tracker's own state. */
  class Tracker {
    var sets: seq<WorkoutSet>
    var currentSetIndex: nat
    var rpe: int
    var showTips: bool

    constructor()
      ensures sets == [] && currentSetIndex == 0 && rpe == 7 && !showTips
    {
      sets := [];
      currentSetIndex := 0;
      rpe := 7;
      showTips := false;
    }

    /** The effect run when the exercise changes: its sets are loaded, none completed. */
    method Load(ex: TrackedExercise)
      modifies this
      ensures sets == Loaded(ex.sets)
      ensures currentSetIndex == old(currentSetIndex) && rpe == old(rpe) && showTips == old(showTips)
    {
      sets := Loaded(ex.sets);
    }

    /** `handleSetComplete`. */
    method HandleSetComplete(setIndex: nat, updated: WorkoutSet)
      modifies this
      ensures sets == WithSetCompleted(old(sets), setIndex, updated)
      ensures currentSetIndex == NextSetIndex(old(sets), setIndex, old(currentSetIndex))
      ensures rpe == old(rpe) && showTips == old(showTips)
    {
      var before := sets;
      sets := WithSetCompleted(sets, setIndex, updated);
      if setIndex < |before| - 1 {
        currentSetIndex := setIndex + 1;
      }
    }

    /** The RPE selector's `onChange`. */
    method SetRpe(value: int)
      modifies this
      ensures rpe == value
      ensures sets == old(sets) && currentSetIndex == old(currentSetIndex) && showTips == old(showTips)
    {
      rpe := value;
    }

    /** The tips button flips whether the tips are shown. */
    method ToggleTips()
      modifies this
      ensures showTips == !old(showTips)
      ensures sets == old(sets) && currentSetIndex == old(currentSetIndex) && rpe == old(rpe)
    {
      showTips := !showTips;
    }

    /** `handleExerciseComplete`: the value passed to `onComplete` is the chosen RPE. */
    method HandleExerciseComplete() returns (reported: int)
      ensures reported == rpe
    {
      reported := rpe;
    }
  }
}
