/**
 * The progression-plan card: the sets of the exercise in the most recent history
 * entry seed a plan over the next four weeks, which is listed week by week.
 *
 * `generateProgressionPlan` and the user settings are not part of this model;
 * the generator is the parameter `generate`.
 */
module ProgressionPlanCard {
  import opened Common
  import opened Seqs
  import opened WorkoutData

  /** The number of weeks the plan is requested for. */
  const PlanHorizon: int := 4

  function NegatedDate(h: HistoryEntry): real { -(h.date as real) }

  /** `getLastPerformance`: the exercise's sets in the latest entry, or none. */
  function LastPerformance(history: seq<HistoryEntry>, id: string): seq<WorkoutSet>
  {
    if |history| == 0 then []
    else
      SetsIn(SortByKey(history, NegatedDate)[0], id)
  }

  /** The exercise's sets in one entry, or none. */
  function SetsIn(h: HistoryEntry, id: string): seq<WorkoutSet>
  {
    var found := FindById(h.exercises, id);
    if found.Some? then found.value.sets else []
  }

  /** An entry no other entry is more recent than. */
  predicate IsLatest(history: seq<HistoryEntry>, i: int)
  {
    0 <= i < |history| && forall j :: 0 <= j < |history| ==> history[j].date <= history[i].date
  }

  /**
   * With history, the result comes from a most recent entry, the first one in the
   * history's order among entries of the latest date: that entry's sets for the
   * exercise, or none when that entry lacks it (older entries are not consulted).
   */
  lemma LastPerformanceIsLatest(history: seq<HistoryEntry>, id: string)
    requires history != []
    ensures exists i ::
              && IsLatest(history, i)
              && (forall j :: 0 <= j < i ==> history[j].date < history[i].date)
              && LastPerformance(history, id) == SetsIn(history[i], id)
  {
    SortByKeyHead(history, NegatedDate);
    var i :| FirstSmallest(history, NegatedDate, i) && SortByKey(history, NegatedDate)[0] == history[i];
    forall j | 0 <= j < |history| ensures history[j].date <= history[i].date && (j < i ==> history[j].date < history[i].date) {
      assert NegatedDate(history[i]) <= NegatedDate(history[j]);
    }
    assert IsLatest(history, i);
  }

  /** An empty history gives an empty last performance. */
  lemma EmptyHistoryHasNoPerformance(id: string)
    ensures LastPerformance([], id) == []
  {
  }

  datatype ProgressionMethod = Linear | DoubleProgression | PercentageBased | RpeBased | WaveLoading

  /** A week's rep target: a range (an array) or a single number. */
  datatype RepTarget = RepRange(reps: seq<int>) | RepCount(count: int)

  datatype PlanWeek = PlanWeek(week: int, projectedReps: RepTarget, projectedWeight: real)

  /** An array element in a template string: `undefined` when out of range. */
  function ElementText(s: seq<int>, i: int): string
  {
    if 0 <= i < |s| then IntToString(s[i]) else "undefined"
  }

  /** The rep text of a week: "first-last reps" for a range, "n reps" for a single target. */
  function RepsText(target: RepTarget, repsWord: string): string
  {
    match target
    case RepRange(r) => ElementText(r, 0) + "-" + ElementText(r, |r| - 1) + " " + repsWord
    case RepCount(n) => IntToString(n) + " " + repsWord
  }

  /** The text of a non-empty range with non-negative ends determines its first and last element. */
  lemma RepRangeTextDeterminesEnds(r1: seq<int>, r2: seq<int>, repsWord: string)
    requires r1 != [] && r2 != []
    requires r1[0] >= 0 && r1[|r1| - 1] >= 0 && r2[0] >= 0 && r2[|r2| - 1] >= 0
    requires RepsText(RepRange(r1), repsWord) == RepsText(RepRange(r2), repsWord)
    ensures r1[0] == r2[0] && r1[|r1| - 1] == r2[|r2| - 1]
  {
    var a, b := NatToString(r1[0]), NatToString(r2[0]);
    var c, d := NatToString(r1[|r1| - 1]), NatToString(r2[|r2| - 1]);
    var tail := " " + repsWord;
    assert RepsText(RepRange(r1), repsWord) == a + "-" + c + tail;
    assert RepsText(RepRange(r2), repsWord) == b + "-" + d + tail;
    assert a + "-" + c + tail == a + ['-'] + (c + tail);
    assert b + "-" + d + tail == b + ['-'] + (d + tail);
    SplitAtSeparator(a, b, c + tail, d + tail, '-');
    assert c == (c + tail)[..|c + tail| - |tail|];
    assert d == (d + tail)[..|d + tail| - |tail|];
    NatToStringInjective(r1[0], r2[0]);
    NatToStringInjective(r1[|r1| - 1], r2[|r2| - 1]);
  }

  /** An empty range has no elements to show. */
  lemma EmptyRangeText(repsWord: string)
    ensures RepsText(RepRange([]), repsWord) == "undefined-undefined " + repsWord
  {
  }

  datatype WeekRow = WeekRow(week: int, repsText: string, weight: int)

  datatype Rendered = Nothing | Card(progression: ProgressionMethod, rows: seq<WeekRow>)

  function Row(repsWord: string): PlanWeek -> WeekRow
  {
    (w: PlanWeek) => WeekRow(w.week, RepsText(w.projectedReps, repsWord), Round(w.projectedWeight))
  }

  /** The card for the plan generated from the last performance. */
  function Render(exercise: Exercise, history: seq<HistoryEntry>, progression: ProgressionMethod, repsWord: string,
                  generate: (Exercise, seq<WorkoutSet>, ProgressionMethod, int) -> seq<PlanWeek>): Rendered
  {
    var plan := generate(exercise, LastPerformance(history, exercise.id), progression, PlanHorizon);
    if |plan| == 0 then Nothing else Card(progression, Map(plan, Row(repsWord)))
  }

  /**
   * The plan is requested for four weeks from the last performance; an empty plan
   * renders nothing, otherwise there is one row per plan week with its rounded weight.
   */
  lemma RenderSpec(exercise: Exercise, history: seq<HistoryEntry>, progression: ProgressionMethod, repsWord: string,
                   generate: (Exercise, seq<WorkoutSet>, ProgressionMethod, int) -> seq<PlanWeek>)
    ensures var plan := generate(exercise, LastPerformance(history, exercise.id), progression, 4);
      var r := Render(exercise, history, progression, repsWord, generate);
      && (r.Nothing? <==> plan == [])
      && (r.Card? ==> |r.rows| == |plan|)
      && (r.Card? ==> forall i :: 0 <= i < |plan| ==> r.rows[i].week == plan[i].week && r.rows[i].weight == Round(plan[i].projectedWeight))
  {
  }
}
