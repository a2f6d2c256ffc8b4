/**
 * The bar chart comparing a workout's exercises by volume: the five exercises
 * with the highest volume, their shortened names, their volumes, and the
 * volumes of the same exercises in the previous workout when there are any.
 */
module PerformanceChart {
  import opened Common
  import opened Seqs
  import opened WorkoutData

  datatype ChartData = ChartData(
    labels: seq<string>,
    current: seq<real>,
    previous: seq<real>,
    hasPreviousData: bool,
    legend: seq<string>)

  /** What the component renders: nothing, or the chart. */
  datatype Rendered = Nothing | Chart(data: ChartData)

  const MaxBars: nat := 5
  const MaxNameLength: nat := 10

  /** The descending sort key: `(a, b) => volume(b) - volume(a)`. */
  function NegatedVolume(ex: Exercise): real { -Volume(ex) }

  /** `[...exercises].sort(...).slice(0, 5)`. */
  function TopExercises(exercises: seq<Exercise>): seq<Exercise>
  {
    var sorted := SortByKey(exercises, NegatedVolume);
    if |sorted| <= MaxBars then sorted else sorted[..MaxBars]
  }

  /** A name longer than ten characters is cut to its first ten and gets "...". */
  function ShortName(name: string): (r: string)
    ensures |name| <= MaxNameLength ==> r == name
    ensures |name| > MaxNameLength ==> |r| == MaxNameLength + 3 && r[..MaxNameLength] == name[..MaxNameLength] && r[MaxNameLength..] == "..."
  {
    if |name| > MaxNameLength then name[..MaxNameLength] + "..." else name
  }

  /** `previousExercises.find((e) => e.id === id)`. */
  predicate NoMatch(exercises: seq<Exercise>, id: string)
  {
    forall k :: 0 <= k < |exercises| ==> exercises[k].id != id
  }

  /** The previous volume of an exercise: 0 without a previous list or without a match by id. */
  function PreviousVolume(previousExercises: Option<seq<Exercise>>, ex: Exercise): real
  {
    if previousExercises.None? then 0.0
    else
      var found := FindById(previousExercises.value, ex.id);
      if found.Some? then Volume(found.value) else 0.0
  }

  function Name(ex: Exercise): string { ex.name }

  /** `prepareChartData`. */
  function PrepareChartData(exercises: seq<Exercise>, previousExercises: Option<seq<Exercise>>): ChartData
  {
    var top := TopExercises(exercises);
    var previous := Map(top, ex => PreviousVolume(previousExercises, ex));
    var hasPrevious := exists i :: 0 <= i < |previous| && previous[i] > 0.0;
    ChartData(
      Map(Map(top, Name), ShortName),
      Map(top, Volume),
      previous,
      hasPrevious,
      if hasPrevious then ["Current", "Previous"] else ["Current"])
  }

  /** The component: nothing without exercises or when every shown volume is 0. */
  function Render(exercises: seq<Exercise>, previousExercises: Option<seq<Exercise>>): Rendered
  {
    if exercises == [] then Nothing
    else
      var data := PrepareChartData(exercises, previousExercises);
      if forall i :: 0 <= i < |data.current| ==> data.current[i] == 0.0 then Nothing
      else Chart(data)
  }

  /**
   * At most five bars, taken from the exercises (all of them when there are at
   * most five); each bar is an exercise's shortened name and volume, the volumes
   * do not increase from left to right, and every exercise left out has a volume
   * no larger than any shown one.
   */
  lemma ChartShowsTopFive(exercises: seq<Exercise>, previousExercises: Option<seq<Exercise>>)
    ensures var d := PrepareChartData(exercises, previousExercises);
      && |d.labels| == |d.current| == |d.previous| == (if |exercises| < MaxBars then |exercises| else MaxBars)
      && (forall i, j :: 0 <= i < j < |d.current| ==> d.current[i] >= d.current[j])
      && (forall e :: e in exercises && e !in TopExercises(exercises) ==>
            forall i :: 0 <= i < |d.current| ==> d.current[i] >= Volume(e))
    ensures multiset(TopExercises(exercises)) <= multiset(exercises)
    ensures |exercises| <= MaxBars ==> multiset(TopExercises(exercises)) == multiset(exercises)
    ensures var d := PrepareChartData(exercises, previousExercises);
      forall i :: 0 <= i < |d.current| ==>
        d.current[i] == Volume(TopExercises(exercises)[i]) && d.labels[i] == ShortName(TopExercises(exercises)[i].name)
  {
    TopExercisesSpec(exercises);
    ChartBars(exercises, previousExercises);
  }

  /** The top exercises: the five of highest volume, in descending order of volume. */
  lemma TopExercisesSpec(exercises: seq<Exercise>)
    ensures var top := TopExercises(exercises);
      && |top| == (if |exercises| < MaxBars then |exercises| else MaxBars)
      && multiset(top) <= multiset(exercises)
      && (|exercises| <= MaxBars ==> multiset(top) == multiset(exercises))
      && (forall i, j :: 0 <= i < j < |top| ==> Volume(top[i]) >= Volume(top[j]))
      && (forall e :: e in exercises && e !in top ==> forall i :: 0 <= i < |top| ==> Volume(top[i]) >= Volume(e))
  {
    var sorted := SortByKey(exercises, NegatedVolume);
    SortByKeySorted(exercises, NegatedVolume);
    var top := TopExercises(exercises);
    if |sorted| > MaxBars {
      assert sorted == top + sorted[MaxBars..];
    }
    forall i, j | 0 <= i < j < |top| ensures Volume(top[i]) >= Volume(top[j]) {
      assert top[i] == sorted[i] && top[j] == sorted[j];
    }
    forall e | e in exercises && e !in top
      ensures forall i :: 0 <= i < |top| ==> Volume(top[i]) >= Volume(e)
    {
      SortByKeyMember(exercises, NegatedVolume, e);
      var j :| 0 <= j < |sorted| && sorted[j] == e;
      assert j >= |top|;
      forall i | 0 <= i < |top| ensures Volume(top[i]) >= Volume(e) {
        assert top[i] == sorted[i];
      }
    }
  }

  /** Bar i shows the shortened name and the volume of the i-th top exercise. */
  lemma ChartBars(exercises: seq<Exercise>, previousExercises: Option<seq<Exercise>>)
    ensures var d := PrepareChartData(exercises, previousExercises);
      var top := TopExercises(exercises);
      && |d.labels| == |d.current| == |d.previous| == |top|
      && forall i :: 0 <= i < |top| ==> d.current[i] == Volume(top[i]) && d.labels[i] == ShortName(top[i].name)
  {
  }

  /**
   * The previous value of a bar is the volume of the first previous exercise with the
   * same id, and 0 without a previous list or a match; the second dataset and its
   * legend appear exactly when some previous value is positive.
   */
  lemma PreviousDataSpec(exercises: seq<Exercise>, previousExercises: Option<seq<Exercise>>)
    ensures var d := PrepareChartData(exercises, previousExercises);
      var top := TopExercises(exercises);
      && (forall i :: 0 <= i < |top| ==> (previousExercises.None? ==> d.previous[i] == 0.0))
      && (forall i :: 0 <= i < |top| && previousExercises.Some? && NoMatch(previousExercises.value, top[i].id) ==>
            d.previous[i] == 0.0)
      && (forall i :: 0 <= i < |top| && previousExercises.Some? && !NoMatch(previousExercises.value, top[i].id) ==>
            exists k :: 0 <= k < |previousExercises.value| && previousExercises.value[k].id == top[i].id
              && NoMatch(previousExercises.value[..k], top[i].id)
              && d.previous[i] == Volume(previousExercises.value[k]))
      && (d.hasPreviousData <==> exists i :: 0 <= i < |d.previous| && d.previous[i] > 0.0)
      && (d.legend == if d.hasPreviousData then ["Current", "Previous"] else ["Current"])
  {
    var d := PrepareChartData(exercises, previousExercises);
    var top := TopExercises(exercises);
    forall i | 0 <= i < |top| && previousExercises.Some? && !NoMatch(previousExercises.value, top[i].id)
      ensures exists k :: 0 <= k < |previousExercises.value| && previousExercises.value[k].id == top[i].id
                && NoMatch(previousExercises.value[..k], top[i].id)
                && d.previous[i] == Volume(previousExercises.value[k])
    {
      var prev := previousExercises.value;
      var found := FindById(prev, top[i].id);
      var k :| 0 <= k < |prev| && prev[k] == found.value && found.value.id == top[i].id &&
               forall j :: 0 <= j < k ==> prev[j].id != top[i].id;
      assert NoMatch(prev[..k], top[i].id);
    }
  }

  /** Nothing is rendered without exercises or when all shown volumes are 0; otherwise the chart is. */
  lemma RenderGuards(exercises: seq<Exercise>, previousExercises: Option<seq<Exercise>>)
    ensures exercises == [] ==> Render(exercises, previousExercises) == Nothing
    ensures Render(exercises, previousExercises).Chart? <==>
      && exercises != []
      && exists i :: 0 <= i < |PrepareChartData(exercises, previousExercises).current| &&
           PrepareChartData(exercises, previousExercises).current[i] != 0.0
  {
  }
}
