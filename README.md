# recepGYM components — a Dafny model

This project models the decision logic of the recepGYM fitness app's React
Native components: the rest timers used between sets, the workout and
wellness charts, the analytics cards, the workout-logging widgets and the
wellness gauges. Each component file becomes one Dafny module of the same
name, such as `EnhancedRestTimer` for `components/workout/EnhancedRestTimer.tsx`.

Shared modules:

- `Common`: the `Option` used for absent props and `||` defaults.
  - `JsNumber` (a finite value, ±Infinity or NaN) for the divisions and
    `Math.max` calls the source leaves unguarded.
  - `Math.round`, clamping, the recovery `Status` and the theme colours (the
    latter only as named colours).
  - Integer/decimal text conversion.
- `Seqs`: the `filter`, `map`, `reduce`, stable `sort`, toggle and
  no-duplicates operations.
- `Text`: the ASCII `toLowerCase`, `trim` and `includes`, and the default text
  order of `sort()`.
- `WorkoutData`: the workout records.
- `SleepData`: the sleep records and their chronological order.
- `DayGroups`: grouping wellness samples by calendar day, as the mood, stress
  and hydration charts do.

Form of the model:

- **Pure computations** (rest recommendations, bands, labels, chart series,
  statistics, filters) are functions. Lemmas relate them to an independent
  statement of what the component promises.
- **State updated step by step** is a class whose fields are that state.
  - This covers the countdowns, the exercise tracker's sets and cursor, the
    exercise picker's filters and the expanded tips category.
  - Each method's `ensures` gives the new state as a transition function of
    the old one. The lemmas about those transitions state what the timers
    promise: how many ticks until completion, that completion fires once, that
    pausing keeps the time, and the correction applied after returning from
    the background.
- **Loops that fill arrays or maps** are methods with loop invariants, proved
  equal to the function that specifies them. Examples are the frequency
  chart's counting buckets and the per-day maps of the correlation chart.
- **Inputs from outside:**
  - The clock, the app-state events and the timer ticks are explicit inputs.
  - Calendar dates are day numbers or abstract date records.
  - Translated texts are their keys.
  - The helpers imported from utility files are function parameters.

## Model

| member | source | states |
|---|---|---|
| EnhancedRestTimer.BaseRestValues | components/workout/EnhancedRestTimer.tsx:49-60 | the base rest is 60 s for light, 180 s for high and 90 s for moderate or any other intensity |
| EnhancedRestTimer.RecommendedRestAtBaseline | components/workout/EnhancedRestTimer.tsx:63-84 | at RPE 5 with a good or absent recovery status the recommendation equals the base rest |
| EnhancedRestTimer.RecommendedRestMonotoneInRpe | components/workout/EnhancedRestTimer.tsx:63-84 | for fixed intensity and status the recommendation never decreases as the previous set's RPE rises |
| EnhancedRestTimer.RecommendedRestMonotoneInRecovery | components/workout/EnhancedRestTimer.tsx:66-84 | for a non-negative unadjusted rest, poor rests at least as long as fair, fair as good, good as excellent; an absent status rests like good (multiplier 1.0) |
| EnhancedRestTimer.TickedSpec | components/workout/EnhancedRestTimer.tsx:95-107 | a tick changes nothing unless active and unpaused; otherwise it lowers the time by exactly 1, or at 1 s or less sets it to 0, deactivates and calls onComplete if given |
| EnhancedRestTimer.TicksBeforeCompletion | components/workout/EnhancedRestTimer.tsx:97-106 | k < t ticks of a running timer at t seconds leave t - k seconds and call nothing |
| EnhancedRestTimer.TicksWhileStopped | components/workout/EnhancedRestTimer.tsx:95-110 | an inactive or paused timer ignores any number of ticks |
| EnhancedRestTimer.CountdownCompletesOnce | components/workout/EnhancedRestTimer.tsx:99-104 | from t >= 1, exactly t uninterrupted ticks reach 0 and stop the timer, and any n >= t ticks call onComplete exactly once |
| EnhancedRestTimer.TicksSplit | components/workout/EnhancedRestTimer.tsx:97-106 | j ticks followed by k ticks equal j + k ticks, callbacks concatenated |
| EnhancedRestTimer.PausedKeepsTime | components/workout/EnhancedRestTimer.tsx:197-203 | a paused timer keeps its time through any ticks, and resuming continues from that time |
| EnhancedRestTimer.GoingAwaySpec | components/workout/EnhancedRestTimer.tsx:122-126 | going from active to inactive/background stores the current time only for an active, unpaused timer, changes nothing else and calls nothing |
| EnhancedRestTimer.ForegroundCorrection | components/workout/EnhancedRestTimer.tsx:127-140 | coming back subtracts floor(elapsed ms / 1000) clamped at 0, never yields a negative time, deactivates and calls onComplete only on reaching 0 with a callback, and clears the stored time |
| EnhancedRestTimer.ForegroundWithoutCorrection | components/workout/EnhancedRestTimer.tsx:127-143 | without a stored time or for a stopped timer, returning to the foreground only records the new app state |
| EnhancedRestTimer.TimeLeftStaysNonNegative | components/workout/EnhancedRestTimer.tsx:95-214 | no event (tick, app-state change, start, pause, resume, reset, skip, prop change) drives a non-negative time below 0 when the recommendation is non-negative |
| EnhancedRestTimer.PropsChangedSpec | components/workout/EnhancedRestTimer.tsx:88-92 | a re-render keeping intensity, RPE and recovery status (e.g. new callbacks only) leaves the whole countdown state unchanged; changing any of them sets the time left to the new recommendation and changes nothing else; a time equal to the old recommendation becomes the new one |
| EnhancedRestTimer.DefaultRecommendation | components/workout/EnhancedRestTimer.tsx:23-30 | with intensity and RPE omitted (moderate, 7) the recommendation is round(110 × recovery multiplier): 110 s for good or unknown, 143 s poor, 94 s excellent, and 127 s fair in exact arithmetic (126 s in the program, whose double-precision 110 × 1.15 falls just below 126.5) |
| EnhancedRestTimer.ResetAndSkip | components/workout/EnhancedRestTimer.tsx:205-214 | reset restores the recommendation with the timer inactive and unpaused; skip only calls onSkip (if given) and leaves the state unchanged |
| EnhancedRestTimer.ResetTimerIsIdle | components/workout/EnhancedRestTimer.tsx:205-208 | a reset timer ignores ticks until started again |
| EnhancedRestTimer.Timer.constructor | components/workout/EnhancedRestTimer.tsx:35-42 | after mounting and the first effect the state is the recommendation, inactive, unpaused, with no stored time |
| EnhancedRestTimer.Timer.Tick | components/workout/EnhancedRestTimer.tsx:97-106 | the new state and the callbacks are those of Ticked |
| EnhancedRestTimer.Timer.ChangeAppState | components/workout/EnhancedRestTimer.tsx:120-144 | the new state and the callbacks are those of AppStateChanged |
| EnhancedRestTimer.Timer.Start | components/workout/EnhancedRestTimer.tsx:192-195 | sets active and unpaused, keeps the rest |
| EnhancedRestTimer.Timer.Pause | components/workout/EnhancedRestTimer.tsx:197-199 | sets paused, keeps the rest |
| EnhancedRestTimer.Timer.Resume | components/workout/EnhancedRestTimer.tsx:201-203 | clears paused, keeps the rest |
| EnhancedRestTimer.Timer.Reset | components/workout/EnhancedRestTimer.tsx:205-210 | the new state is WasReset of the old one |
| EnhancedRestTimer.Timer.Skip | components/workout/EnhancedRestTimer.tsx:212-214 | reports onSkip when given and changes no state |
| EnhancedRestTimer.Timer.ChangeProps | components/workout/EnhancedRestTimer.tsx:88-92 | stores the new props; the new state is PropsChanged of the old props, the new props and the old state |
| WorkoutRestTimer.TickedSpec | components/workout/RestTimer.tsx:41-54 | with an interval installed a tick lowers the time by 1, or at 1 s or less sets 0, clears the interval and calls onComplete; without one nothing happens |
| WorkoutRestTimer.TicksBeforeCompletion | components/workout/RestTimer.tsx:42-52 | k < t ticks leave t - k seconds and call nothing |
| WorkoutRestTimer.TicksWhileStopped | components/workout/RestTimer.tsx:64-77 | without an installed interval ticks change nothing |
| WorkoutRestTimer.CountdownFromMount | components/workout/RestTimer.tsx:23-54 | mounted with duration d >= 1, k < d ticks show d - k, and any n >= d ticks reach 0 and call onComplete exactly once |
| WorkoutRestTimer.TicksRun | components/workout/RestTimer.tsx:42-52 | a running countdown at t >= 1 completes exactly once within any n >= t ticks |
| WorkoutRestTimer.PausedKeepsTime | components/workout/RestTimer.tsx:64-80 | pausing removes the interval so ticks change nothing; pausing then resuming keeps the time and reinstalls the interval |
| WorkoutRestTimer.SkipCompletes | components/workout/RestTimer.tsx:82-87 | skip clears the interval, calls onComplete and keeps the time; afterwards ticks change nothing |
| WorkoutRestTimer.ResumeAfterCompletionCompletesAgain | components/workout/RestTimer.tsx:44-79 | after running out, pause then resume installs a new interval whose first tick calls onComplete a second time |
| WorkoutRestTimer.FormatTimeLeftRoundTrip | components/workout/RestTimer.tsx:90-95 | for t >= 0 the text is minutes, a colon and two seconds digits, and parsing it back gives m and s with 60 m + s == t and s < 60 |
| WorkoutRestTimer.RestTipFor | components/workout/RestTimer.tsx:98-113 | no tip without a status; otherwise exactly the tip of that status, each status its own |
| WorkoutRestTimer.Timer.constructor | components/workout/RestTimer.tsx:23-39 | the mounted state: time = duration, not paused, interval installed |
| WorkoutRestTimer.Timer.Tick | components/workout/RestTimer.tsx:42-53 | the new state and the callbacks are those of Ticked |
| WorkoutRestTimer.Timer.PauseResume | components/workout/RestTimer.tsx:64-80 | the new state is PauseResumed of the old one |
| WorkoutRestTimer.Timer.Skip | components/workout/RestTimer.tsx:82-87 | the new state and the callbacks are those of Skipped |
| WorkoutsRestTimer.TicksWhileIdle | components/workouts/RestTimer.tsx:65-87 | a timer that is stopped or at 0 or below ignores any number of ticks |
| WorkoutsRestTimer.NonPositiveDurationNeverCompletes | components/workouts/RestTimer.tsx:52-68 | with duration <= 0 the interval is never installed, so onComplete is never called |
| WorkoutsRestTimer.CountdownCompletesOnce | components/workouts/RestTimer.tsx:68-79 | a running timer at t >= 1 reaches 0 after t ticks, calling onComplete and the heavy vibration once, and stays there |
| WorkoutsRestTimer.TicksBeforeCompletion | components/workouts/RestTimer.tsx:69-78 | k < t ticks take exactly k seconds off and call nothing |
| WorkoutsRestTimer.ToggleSpec | components/workouts/RestTimer.tsx:89-102 | toggling flips only the running flag, twice restores the state, and a stopped timer ignores ticks |
| WorkoutsRestTimer.SkipSpec | components/workouts/RestTimer.tsx:104-106 | skip calls onSkip and changes nothing in the countdown |
| WorkoutsRestTimer.Timer.constructor | components/workouts/RestTimer.tsx:36-63 | the mounted state is the duration effect's: time = duration, running, with that duration remembered |
| WorkoutsRestTimer.RerenderedSpec | components/workouts/RestTimer.tsx:52-63 | re-rendering with an unchanged duration leaves time and running flag alone (a paused timer stays paused); a changed duration restarts the countdown from it, running; repeating the same duration afterwards changes nothing |
| WorkoutsRestTimer.Timer.ChangeDuration | components/workouts/RestTimer.tsx:52-63 | stores the new duration; the new state is Rerendered of the last duration, the new one and the old state, so the timer resets only when the duration changes |
| WorkoutsRestTimer.Timer.Tick | components/workouts/RestTimer.tsx:65-87 | the new state and the callbacks are those of Ticked |
| WorkoutsRestTimer.Timer.Toggle | components/workouts/RestTimer.tsx:89-90 | the new state is Toggled of the old one |
| WorkoutsRestTimer.Timer.Skip | components/workouts/RestTimer.tsx:104-106 | reports onSkip and changes no state |
| CorrelationChart.PerformanceScore | components/analytics/CorrelationChart.tsx:40-46 | the score is completed sets / total sets · 100, in [0, 100], 0 without sets, and 100 exactly when there are sets and all are completed |
| CorrelationChart.BuildWorkoutMap | components/analytics/CorrelationChart.tsx:33-53 | the loop builds exactly the day → score map ScoresByDay |
| CorrelationChart.LastCompletedOn | components/analytics/CorrelationChart.tsx:34-52 | the position found is of a workout completed on the day with none completed on it later; when none is found, no workout was completed on the day |
| CorrelationChart.ScoresByDayLastWins | components/analytics/CorrelationChart.tsx:34-52 | a day is a key exactly when some workout was completed on it (LastCompletedOn finds one), and it holds the score of the last such workout in input order |
| CorrelationChart.PairSamples | components/analytics/CorrelationChart.tsx:59-85 | the loop pushes exactly the points of Paired |
| CorrelationChart.PairedSpec | components/analytics/CorrelationChart.tsx:57-85 | one point per sample with a workout offset days later (1 for sleep, 0 for stress), in sample order, pairing its value with that day's score; other samples are dropped |
| CorrelationChart.CollectSpec | components/analytics/CorrelationChart.tsx:92-111 | collecting samples keeps the date map well formed; a day is present iff it was or some sample falls on it, and the collected field holds the last sample of that day |
| CorrelationChart.DateMapEntries | components/analytics/CorrelationChart.tsx:89-111 | one key per day with a sleep or stress sample, each holding the last sleep value and the last stress value of that day |
| CorrelationChart.RecoveryScoreBounds | components/analytics/CorrelationChart.tsx:122-124 | the recovery score is 0.7·sleep + 0.3·(100 − stress), or 0.7·sleep + 30 without stress, and stays in [0, 100] for inputs in [0, 100] |
| CorrelationChart.RecoveryPointsSpec | components/analytics/CorrelationChart.tsx:114-131 | one point per date-map day, in key order, that has sleep and a workout the next day, pairing its recovery score with that score |
| CorrelationChart.BuildDateMap | components/analytics/CorrelationChart.tsx:89-111 | the two loops build exactly DateMapOf(sleep, stress) |
| CorrelationChart.BuildDataPoints | components/analytics/CorrelationChart.tsx:31-135 | the memo body returns exactly DataPoints for the metric |
| CorrelationChart.UnknownMetricHasNoPoints | components/analytics/CorrelationChart.tsx:57-134 | a metric other than sleep, stress or recovery yields no points |
| CorrelationChart.RadicandNonNegative | components/analytics/CorrelationChart.tsx:149 | (nΣx² − (Σx)²)(nΣy² − (Σy)²) is never negative, so the square root is always defined |
| CorrelationChart.Correlation | components/analytics/CorrelationChart.tsx:138-152 | a non-zero coefficient always has a positive radicand; that its magnitude is at most 1 is the separate lemma CorrelationBounded |
| CorrelationChart.NumeratorSquaredBelowRadicand | components/analytics/CorrelationChart.tsx:140-149 | Cauchy–Schwarz for the sums: (nΣxy − ΣxΣy)² ≤ (nΣx² − (Σx)²)(nΣy² − (Σy)²) for every point list |
| CorrelationChart.CorrelationBounded | components/analytics/CorrelationChart.tsx:138-152 | a non-zero coefficient has numerator² ≤ radicand, i.e. it never exceeds 1 in magnitude |
| CorrelationChart.CoefficientInRange | components/analytics/CorrelationChart.tsx:210-218 | for a coefficient as Correlation and CorrelationBounded guarantee, its value lies in [−1, 1], so abs(r) is a strength in [0, 1] and a "strong" one lies in [0.7, 1] |
| CorrelationChart.CorrelationCases | components/analytics/CorrelationChart.tsx:138-152 | the coefficient is 0 exactly with fewer than two points or a zero denominator, else nΣxy − ΣxΣy over the root of the radicand |
| CorrelationChart.SwapSymmetric | components/analytics/CorrelationChart.tsx:138-152 | swapping x and y in every point leaves the coefficient unchanged |
| CorrelationChart.StrengthBands | components/analytics/CorrelationChart.tsx:210-218 | weak for abs(r) < 0.3, moderate for abs(r) < 0.7, strong otherwise |
| CorrelationChart.DirectionBands | components/analytics/CorrelationChart.tsx:221-229 | positive for r > 0.1, negative for r < −0.1, none otherwise |
| CorrelationChart.ValueColorBands | components/analytics/CorrelationChart.tsx:253-258 | the coefficient is muted when abs(r) < 0.3, otherwise green when positive and red when not |
| ExerciseSummary.StatsTotalsAndMaxima | components/workouts/ExerciseSummary.tsx:27-42 | sets are counted, reps and volume summed with missing values as 0; for a non-empty exercise the highest weight and reps bound every set and are attained, and an empty one gives −Infinity for both |
| ExerciseSummary.OneRepMaxBounds | components/workouts/ExerciseSummary.tsx:45 | the one-rep max is the largest per-set estimate and never below 0, also without sets |
| ExerciseSummary.VolumeComparison | components/workouts/ExerciseSummary.tsx:47-66 | with a previous exercise the change is the volume difference and the percentage is change / previous volume · 100 for a positive previous volume (else 0); without one both are 0 and hasPrevious is false |
| ProgressChart.FilteredDataSpec | components/progress/ProgressChart.tsx:25-48 | the filtered history is sorted by date; an entry is in it exactly when it is in the history, within the timeframe and contains an exercise with the id; and as a multiset it equals the history filtered by those two conditions, so duplicates are kept and nothing is added |
| ProgressChart.EmptyHistoryHasNoData | components/progress/ProgressChart.tsx:26 | a missing or empty history yields no entries |
| ProgressChart.BestSetIsLargest | components/progress/ProgressChart.tsx:72-78 | the first set after sorting by descending estimate carries the largest estimate of any set |
| ProgressChart.WeightIsHeaviestSet | components/progress/ProgressChart.tsx:63-67 | the weight metric is the heaviest set's weight (missing as 0); an exercise without sets gives a value that is not plotted |
| ProgressChart.BuildChartData | components/progress/ProgressChart.tsx:51-92 | the loop pushes exactly the labels and values of ChartSeries |
| ProgressChart.ChartSeriesSpec | components/progress/ProgressChart.tsx:57-86 | one label and one value per entry whose metric value is positive, in entry order; labels and data have equal length and every value is positive |
| ProgressChart.TrendMatchesChange | components/progress/ProgressChart.tsx:95-120 | for a series starting positive, the trend is positive / negative / neutral exactly when the percentage change is > 0 / < 0 / = 0 |
| PerformanceChart.ShortName | components/workouts/PerformanceChart.tsx:31-35 | a name of at most 10 characters is kept; a longer one becomes its first 10 characters followed by "..." |
| PerformanceChart.ChartShowsTopFive | components/workouts/PerformanceChart.tsx:23-38 | at most five bars with one label and one value each; bar i shows the volume and the shortened name of the i-th top exercise; the top exercises are a sub-multiset of the input (all of it when there are at most five); the values do not increase from left to right, and every exercise left out has a volume no larger than any shown one |
| PerformanceChart.PreviousDataSpec | components/workouts/PerformanceChart.tsx:41-69 | without previous exercises, or when none has the bar's id, the previous value is 0; otherwise it is the volume of the first previous exercise with that id (no earlier one has it); the second dataset and the "Previous" legend appear exactly when some previous value is positive |
| PerformanceChart.RenderGuards | components/workouts/PerformanceChart.tsx:74-83 | nothing is rendered without exercises or when every shown volume is 0; otherwise the chart is |
| ProgressionChart.ChangeOfSpec | components/workout/ProgressionChart.tsx:110 | (last − first)/first·100 is finite with the sign of last − first for first ≠ 0, and an infinity or NaN (NaN iff last is also 0) for first = 0 |
| ProgressionChart.AxisBounds | components/workout/ProgressionChart.tsx:48-55 | on non-empty data min and max bound every value and are attained, the range is non-negative, the y-axis minimum is non-negative and at most min for non-negative data, and the y-axis maximum is at least max |
| ProgressionChart.AverageWithinRange | components/workout/ProgressionChart.tsx:99 | the average of non-empty data lies between its min and max |
| ProgressionChart.StatsChange | components/workout/ProgressionChart.tsx:105-110 | the change shown is ChangeOf of the first and the last value (see ChangeOfSpec), and it is coloured as a gain exactly when last > first |
| ProgressionChart.EmptyStats | components/workout/ProgressionChart.tsx:48-55 | on empty data min is +Infinity, max −Infinity, the other statistics infinite or NaN, and the change is not a gain |
| ProgressionChart.ChartSpec | components/workout/ProgressionChart.tsx:57-66 | one label and one value per point in input order; the chart is drawn only from two points on |
| ExerciseHistoryChart.DateLabelDistinguishes | components/exercises/ExerciseHistoryChart.tsx:36-39 | equal "month/day" labels come only from equal month and day |
| ExerciseHistoryChart.EmptyStateSpec | components/exercises/ExerciseHistoryChart.tsx:24-31 | the empty state is rendered exactly for missing or empty data |
| ExerciseHistoryChart.ChartSpec | components/exercises/ExerciseHistoryChart.tsx:33-58 | the points are a date-sorted permutation of the input, each label is its point's date, each inner dataset entry its metric, and the dataset has two entries more than there are labels |
| ExerciseHistoryChart.PaddingBounds | components/exercises/ExerciseHistoryChart.tsx:45-58 | the padded floor max(0, min − 0.1·max) is never negative and at most the smallest value for non-negative data; the ceiling max + 0.1·max is at least every value when max ≥ 0 |
| ProgressionPlanCard.LastPerformanceIsLatest | components/progress/ProgressionPlanCard.tsx:32-41 | with history, the result is the sets for the exercise in a most recent entry, the first such entry in history order when several share the latest date (the sort is stable), or none when that entry lacks the exercise (older entries are not consulted) |
| ProgressionPlanCard.EmptyHistoryHasNoPerformance | components/progress/ProgressionPlanCard.tsx:33 | an empty history gives an empty last performance |
| ProgressionPlanCard.RepRangeTextDeterminesEnds | components/progress/ProgressionPlanCard.tsx:102-104 | the "first-last reps" text of a non-empty range with non-negative ends determines the first and last element |
| ProgressionPlanCard.EmptyRangeText | components/progress/ProgressionPlanCard.tsx:102-104 | an empty range prints "undefined-undefined" before the reps word |
| ProgressionPlanCard.RenderSpec | components/progress/ProgressionPlanCard.tsx:43-112 | the plan is requested for 4 weeks from the last performance; an empty plan renders nothing, otherwise one row per plan week with its weight rounded |
| PersonalRecordsCard.KindOfSpec | components/progress/PersonalRecordsCard.tsx:41-54 | a record is typed by its first positive field (weight, then reps, then volume) and has no type exactly when it is not valid |
| PersonalRecordsCard.RowsOfValid | components/progress/PersonalRecordsCard.tsx:39-76 | every valid record yields a row in order; the guard against a missing type never drops one, and each row shows the record's type and its value is that field: the weight when positive, else the reps when positive, else the volume (always positive) |
| PersonalRecordsCard.RenderSpec | components/progress/PersonalRecordsCard.tsx:25-39 | nothing is rendered exactly when no record has a positive weight, reps or volume; otherwise one row per valid record in input order |
| StrengthMetricCard.BarHeightSpec | components/progress/StrengthMetricCard.tsx:79-82 | against a positive maximum a bar is value / maximum · 30: 30 for the maximum and within [0, 30] for values in [0, maximum] |
| StrengthMetricCard.BarsSpec | components/progress/StrengthMetricCard.tsx:79-105 | one bar per history value in order; with a positive maximum each bar is scaled against it, the largest is 30 high, and for non-negative history all lie in [0, 30] |
| StrengthMetricCard.AllZeroHistory | components/progress/StrengthMetricCard.tsx:79-82 | an all-zero history divides 0 by 0, so every bar is NaN |
| ExerciseSelector.Stage | components/exercises/ExerciseSelector.tsx:65-111 | running one more `if (active) filtered = filtered.filter(p)` stage equals filtering the original list by the conjunction of the tests so far |
| ExerciseSelector.ToggledSpec | components/exercises/ExerciseSelector.tsx:116-132 | toggling flips whether the group is selected, keeps every other group's selection and leaves the other filter fields unchanged |
| ExerciseSelector.ToggledTwice | components/exercises/ExerciseSelector.tsx:116-132 | toggling an unselected group twice restores the filter |
| ExerciseSelector.FilteredSpec | components/exercises/ExerciseSelector.tsx:62-113 | the filtered list keeps the library's order, contains no excluded id, and holds exactly the exercises passing every active filter |
| ExerciseSelector.NoFilterKeepsAllButExcluded | components/exercises/ExerciseSelector.tsx:67-111 | a blank query and an empty filter remove only the excluded ids |
| ExerciseSelector.ChainMatches | components/exercises/ExerciseSelector.tsx:65-111 | the chain of stages filters like the single combined test |
| ExerciseSelector.RunStage | components/exercises/ExerciseSelector.tsx:68-111 | one stage's result is the original list filtered by the accumulated conjunction |
| ExerciseSelector.FilterChain | components/exercises/ExerciseSelector.tsx:65-111 | the chain of stages yields exactly the library exercises passing every active filter |
| ExerciseSelector.Selector.constructor | components/exercises/ExerciseSelector.tsx:32-38 | nothing loaded, the filter is the initial filter and the search query is empty |
| ExerciseSelector.Selector.Load | components/exercises/ExerciseSelector.tsx:50-54 | the loaded library replaces the exercises, nothing else changes |
| ExerciseSelector.Selector.SetSearchQuery | components/exercises/ExerciseSelector.tsx:258 | sets the query, nothing else changes |
| ExerciseSelector.Selector.ApplyFilters | components/exercises/ExerciseSelector.tsx:62-114 | with nothing loaded the previous list stays; otherwise the filtered list becomes the exercises passing every active filter |
| ExerciseSelector.Selector.ToggleMuscleGroup | components/exercises/ExerciseSelector.tsx:116-132 | the filter becomes Toggled of the old one, nothing else changes |
| ExerciseSelector.Selector.ResetFilters | components/exercises/ExerciseSelector.tsx:134-137 | every filter and the search query are cleared |
| TagSelector.AddTag | components/journal/TagSelector.tsx:32-37 | onChange is called exactly when the trimmed input is non-blank and not yet selected, with the list extended by that one new, non-empty tag and the old tags kept in order |
| TagSelector.RemoveTag | components/journal/TagSelector.tsx:39-41 | the tag no longer occurs and the rest is an order-preserving subsequence of the old list |
| TagSelector.AddSuggested | components/journal/TagSelector.tsx:43-47 | a suggestion is appended exactly when it is not selected yet |
| TagSelector.AddedTagIsTrimmed | components/journal/TagSelector.tsx:33-34 | the added tag is the trimmed input and neither starts nor ends with white space |
| TagSelector.RemoveTagKeepsOthers | components/journal/TagSelector.tsx:39-41 | removing a tag keeps every other tag |
| TagSelector.AddKeepsNoDup | components/journal/TagSelector.tsx:32-47 | adding (typed or suggested) and removing keep a duplicate-free tag list duplicate-free |
| TagSelector.AddThenRemove | components/journal/TagSelector.tsx:32-41 | adding a new tag and then removing it gives back the original list |
| TagSelector.TagInput.constructor | components/journal/TagSelector.tsx:20 | the input starts empty |
| TagSelector.TagInput.SetNewTag | components/journal/TagSelector.tsx:54 | typing replaces the input text |
| TagSelector.TagInput.HandleAddTag | components/journal/TagSelector.tsx:32-37 | reports AddTag of the current input, and clears the input exactly when the tag was accepted |
| DaySelector.Initial | components/ui/DaySelector.tsx:17-23 | a caption is the first letter of the day name, or empty for an empty name |
| DaySelector.Days | components/ui/DaySelector.tsx:16-24 | seven days, day i having value i and the initial of the i-th name, Sunday first |
| DaySelector.DaysAreTheWeek | components/ui/DaySelector.tsx:16-24 | the offered day values are exactly 0..6, each once |
| DaySelector.ToggleDay | components/ui/DaySelector.tsx:26-32 | a day is selected afterwards exactly when it was not before |
| DaySelector.ToggleDayKeepsOthers | components/ui/DaySelector.tsx:26-32 | a selected day is removed, an unselected one appended, and all other days keep their membership and order |
| DaySelector.ToggleDayTwice | components/ui/DaySelector.tsx:26-32 | toggling an unselected day twice restores the selection |
| DaySelector.ToggleDayNoDup | components/ui/DaySelector.tsx:26-32 | toggling keeps a duplicate-free selection duplicate-free |
| ExerciseTracker.Loaded | components/workout/ExerciseTracker.tsx:32-35 | the loaded sets are the exercise's sets, same weights and reps, none completed |
| ExerciseTracker.WithSetCompleted | components/workout/ExerciseTracker.tsx:37-39 | only the set at the index is replaced, by the reported set marked completed |
| ExerciseTracker.NextSetIndex | components/workout/ExerciseTracker.tsx:42-44 | the next set becomes current unless the completed set is the last one, which keeps the cursor |
| ExerciseTracker.LoadedHidesCompletion | components/workout/ExerciseTracker.tsx:166 | right after loading the RPE panel is hidden |
| ExerciseTracker.CompletionAfterSet | components/workout/ExerciseTracker.tsx:166 | completing a set shows the RPE panel exactly when the list is non-empty and every other set was completed |
| ExerciseTracker.CompletionIsMonotone | components/workout/ExerciseTracker.tsx:37-39 | completing a set never un-completes another |
| ExerciseTracker.WellnessTips | components/workout/ExerciseTracker.tsx:52-78 | no tips without status; poor gives exactly reduced weight, focus on form, then the compound caution for a compound exercise, then the lower-back caution for a lower-back exercise, in that order; fair, excellent and good give their fixed lists; each caution appears exactly for poor status and its kind of exercise |
| ExerciseTracker.WeightAdjustment | components/workout/ExerciseTracker.tsx:83-96 | advice exists exactly for poor, fair and excellent, lies in [−15, 5] %, and is an increase exactly for excellent |
| ExerciseTracker.AdjustmentFollowsRecovery | components/workout/ExerciseTracker.tsx:83-96 | poor −15 % in the error colour < fair −5 % in the warning colour < 0 < excellent +5 % in the success colour |
| ExerciseTracker.AdjustmentText | components/workout/ExerciseTracker.tsx:144-145 | the text ends in "%" and starts with "+" exactly for an increase and with "-" exactly for a decrease |
| ExerciseTracker.Tracker.constructor | components/workout/ExerciseTracker.tsx:27-30 | no sets, cursor 0, RPE 7, tips hidden |
| ExerciseTracker.Tracker.Load | components/workout/ExerciseTracker.tsx:32-35 | the sets become Loaded of the exercise's sets, nothing else changes |
| ExerciseTracker.Tracker.HandleSetComplete | components/workout/ExerciseTracker.tsx:37-45 | the sets become WithSetCompleted and the cursor NextSetIndex of the old sets |
| ExerciseTracker.Tracker.SetRpe | components/workout/ExerciseTracker.tsx:170 | the RPE selector's value is stored, nothing else changes |
| ExerciseTracker.Tracker.ToggleTips | components/workout/ExerciseTracker.tsx:111 | the tips flag flips, nothing else changes |
| ExerciseTracker.Tracker.HandleExerciseComplete | components/workout/ExerciseTracker.tsx:47-49 | onComplete receives the chosen RPE |
| SetRow.StatusOrGood | components/workouts/SetRow.tsx:56-60 | a missing status behaves as good |
| SetRow.WeightAdjustment | components/workouts/SetRow.tsx:56-60 | the adjustment lies in [−10, 0] and is negative exactly for poor or fair |
| SetRow.AdjustedWeight | components/workouts/SetRow.tsx:63 | without a truthy weight it is 0, otherwise the nearest integer (halves up) to weight·(1 + adjustment/100) |
| SetRow.HintMeansReduction | components/workouts/SetRow.tsx:53-91 | the hint is shown exactly when the adjustment is a reduction, the set has a weight and is not completed; never without status |
| SetRow.AdjustedIsReduction | components/workouts/SetRow.tsx:56-63 | for a whole non-negative weight the suggestion lies in [0, weight], and equals the weight without a reduction |
| SetRow.PoorReducesStrictly | components/workouts/SetRow.tsx:57-63 | under poor recovery a weight above 5 is strictly reduced |
| WorkoutCard.TypeKey | components/workout/WorkoutCard.tsx:20 | the type in lower case, or "strength" when missing or empty |
| WorkoutCard.TypeIconSpec | components/workout/WorkoutCard.tsx:19-52 | cardio, hiit, mobility and recovery each have their own icon; any other or missing type is shown as strength; recovery and strength share the primary colour |
| WorkoutCard.TypeIsCaseInsensitive | components/workout/WorkoutCard.tsx:20-38 | the type is matched regardless of letter case |
| WorkoutCard.TotalSets | components/workout/WorkoutCard.tsx:60 | no exercises give no sets |
| WorkoutCard.EstimatedDuration | components/workout/WorkoutCard.tsx:58-64 | −1 for a workout without exercises (the unguarded changeover term), otherwise at least 3 minutes per set |
| WorkoutCard.EstimateSnoc | components/workout/WorkoutCard.tsx:58-64 | one more exercise adds 3 minutes per set plus 1 minute of changeover |
| WorkoutCard.Duration | components/workout/WorkoutCard.tsx:66 | a recorded duration wins unless missing or 0, then the estimate |
| WorkoutCard.PreviewOf | components/workout/WorkoutCard.tsx:125-149 | at most the first three exercises are listed, and "+n more" appears exactly when there are more than three, with shown + n = all |
| WorkoutCard.ShortWorkoutShownInFull | components/workout/WorkoutCard.tsx:125-149 | a workout of at most three exercises is listed in full without "+n more" |
| PersonalizedWorkoutRecommendations.Recommended | components/workout/PersonalizedWorkoutRecommendations.tsx:24-125 | every status gets three recommendations |
| PersonalizedWorkoutRecommendations.Types | components/workout/PersonalizedWorkoutRecommendations.tsx:24-125 | the three workout types in listed order |
| PersonalizedWorkoutRecommendations.RecommendedSpec | components/workout/PersonalizedWorkoutRecommendations.tsx:24-125 | poor: mobility, light cardio, recovery; fair: moderate strength, cardio, mobility; good: strength, HIIT, cardio; excellent: high intensity, strength, HIIT; never a type twice |
| PersonalizedWorkoutRecommendations.IntensityFollowsRecovery | components/workout/PersonalizedWorkoutRecommendations.tsx:24-125 | poor recovery never gets strength, HIIT or high-intensity work, and only excellent recovery gets high intensity |
| PersonalizedWorkoutRecommendations.Select | components/workout/PersonalizedWorkoutRecommendations.tsx:145 | pressing an item reports a recommended type exactly when a handler is given |
| PersonalizedWorkoutRecommendations.StatusColorInjective | components/workout/PersonalizedWorkoutRecommendations.tsx:169-181 | each status has its own badge colour |
| WorkoutFrequencyChart.CountsAddUp | components/analytics/WorkoutFrequencyChart.tsx:35-41 | every counted key lands in exactly one bucket: the buckets add up to the number of keys |
| WorkoutFrequencyChart.Tally | components/analytics/WorkoutFrequencyChart.tsx:35-41 | the zero-filled array after one increment per keyed workout equals Counts of the keys |
| WorkoutFrequencyChart.CountOfFilter | components/analytics/WorkoutFrequencyChart.tsx:37-42 | bucket b holds the number of workouts whose key is b |
| WorkoutFrequencyChart.PassingFilter | components/analytics/WorkoutFrequencyChart.tsx:37-42 | the number of counted keys is the number of workouts that have a key |
| WorkoutFrequencyChart.KeysInRange | components/analytics/WorkoutFrequencyChart.tsx:37-76 | every valid date passing a view's test indexes a bucket of that view: weekday < 7, date − 1 < daysInMonth, month < 12 |
| WorkoutFrequencyChart.ViewCounts | components/analytics/WorkoutFrequencyChart.tsx:27-77 | in the week, month and year views the buckets add up to the number of workouts passing the view's date test, and bucket b counts those whose index is b |
| WorkoutFrequencyChart.SortYears | components/analytics/WorkoutFrequencyChart.tsx:93 | sorting the years keeps the same years with the same multiplicities |
| WorkoutFrequencyChart.SortYearsSorted | components/analytics/WorkoutFrequencyChart.tsx:93 | the years come out in ascending text order, as `sort()` without a comparator orders the key strings |
| WorkoutFrequencyChart.SortYearsNoDup | components/analytics/WorkoutFrequencyChart.tsx:93 | distinct years stay distinct |
| WorkoutFrequencyChart.YearsViewSpec | components/analytics/WorkoutFrequencyChart.tsx:78-97 | exactly one bar per year with a workout, labels in ascending text order and distinct, each bar that year's number of workouts, and the bars adding up to all workouts |
| WorkoutFrequencyChart.Abbreviation | components/analytics/WorkoutFrequencyChart.tsx:29 | a label is the first three characters of the name, or the whole of a shorter name |
| WorkoutFrequencyChart.MonthLabels | components/analytics/WorkoutFrequencyChart.tsx:47-63 | one label per day of the month: the day number at every fifth position (1, 6, 11, …), empty elsewhere |
| WorkoutFrequencyChart.ChartData | components/analytics/WorkoutFrequencyChart.tsx:22-103 | week: weekday labels and Counts over this week's workouts by weekday; month: day labels and counts by date; year: month labels and counts by month; all: the years view; any other timeframe: empty labels and data |
| DayGroups.GroupBy | components/wellness/StressChart.tsx:20-31 | the accumulated groups are well formed: one entry per listed day, each listed once |
| DayGroups.GroupByDay | components/wellness/MoodChart.tsx:20-46 | the in-place reduce loop ends with exactly the groups of GroupBy |
| DayGroups.GroupByKeys | components/wellness/StressChart.tsx:20-31 | a day has an entry exactly when some sample falls on it |
| DayGroups.GroupBySnoc | components/wellness/StressChart.tsx:21-28 | one more sample updates only its own day's entry |
| DayGroups.GroupByTotals | components/wellness/MoodChart.tsx:20-46 | a day's entry holds the sums of that day's values and the number of that day's samples |
| DayGroups.GroupByCountsAddUp | components/wellness/StressChart.tsx:20-31 | every sample is counted once: the day counts add up to the number of samples |
| DayGroups.GroupBySortedAscending | components/wellness/StressChart.tsx:17-31 | grouping date-sorted samples yields the days in strictly ascending order |
| DayGroups.Averages | components/wellness/StressChart.tsx:34-37 | one average sum / count per day, in the order of the days |
| DayGroups.GroupByWindowSum | components/wellness/HydrationChart.tsx:43-49 | looking up distinct days and adding the totals gives the sum over exactly the samples on those days |
| DayGroups.GroupByAverageBounds | components/wellness/MoodChart.tsx:49-53 | a day's average lies within any bounds of that day's values |
| MoodChart.BuildChart | components/wellness/MoodChart.tsx:49-70 | labels, moods and energies have equal length |
| MoodChart.BuildChartPoints | components/wellness/MoodChart.tsx:16-53 | one point per distinct day of the input, in ascending day order, holding the average mood and the average energy of that day's samples |
| MoodChart.BuildChartCounts | components/wellness/MoodChart.tsx:20-46 | the counts of all plotted days add up to the number of samples |
| StressChart.BuildChart | components/wellness/StressChart.tsx:34-48 | labels and levels have equal length |
| StressChart.BuildChartPoints | components/wellness/StressChart.tsx:16-37 | one point per distinct day of the input, in ascending day order, holding the average level of that day's samples |
| StressChart.AverageWithinBounds | components/wellness/StressChart.tsx:34-37 | a day's average lies between any lower and upper bound of that day's levels |
| StressChart.BuildChartCounts | components/wellness/StressChart.tsx:20-31 | the counts of all plotted days add up to the number of samples |
| HydrationChart.Window | components/wellness/HydrationChart.tsx:30-38 | seven consecutive days ending today, oldest first |
| HydrationChart.DaysArray | components/wellness/HydrationChart.tsx:30-38 | the loop from i = 6 down to 0 pushes exactly the window |
| HydrationChart.BuildChart | components/wellness/HydrationChart.tsx:43-49 | seven labels and seven totals |
| HydrationChart.BuildChartTotals | components/wellness/HydrationChart.tsx:17-49 | each plotted total is the sum of the amounts of that day's samples, and a day without samples plots 0 |
| HydrationChart.BuildChartWindowSum | components/wellness/HydrationChart.tsx:17-49 | the plotted totals add up to the amounts of the samples inside the window; samples outside count for nothing |
| Seqs.SortByKeyHead | components/progress/ProgressionPlanCard.tsx:35-36 | the first element of the stable sort is the first element of the input whose key is the smallest |
| WorkoutData.FindById | components/progress/ProgressChart.tsx:58 | the first exercise with the id is found when there is one, and nothing when none has it |
| WorkoutData.VolumeNonNegative | components/workouts/ExerciseSummary.tsx:27-31 | with no negative weight or reps the volume is not negative |
| WorkoutData.MissingValueAddsNothing | components/workouts/ExerciseSummary.tsx:29 | a set with a missing weight or reps adds 0 to the volume |
| SleepData.ByStart | components/wellness/SleepChart.tsx:17 | the nights sorted by start time: same length, same nights with the same multiplicities, ascending start times |
| SleepSummary.Percent | components/wellness/SleepSummary.tsx:17-20 | for a non-zero total the share is finite with share · total = phase · 100; a zero total gives no finite number |
| SleepSummary.PhasesAddUp | components/wellness/SleepSummary.tsx:16-20 | when deep, REM, light and awake time make up the whole night the four shares add up to 100 |
| SleepSummary.PercentBounds | components/wellness/SleepSummary.tsx:17-20 | a phase within a positive night gets a share in [0, 100]; a zero-length night gives NaN exactly when the phase is zero too |
| SleepSummary.LabelBounds | components/wellness/SleepSummary.tsx:87-108 | each legend number is within half a point of its share and in [0, 100] when the share is |
| SleepChart.ChartSpec | components/wellness/SleepChart.tsx:17-26 | one label and one value per night in start order, each value its night's minutes / 60 under its own date label, and the values those of the input rearranged |
| SleepQualityChart.ChartSpec | components/wellness/SleepQualityChart.tsx:17-26 | one label and one value per night in start order, each value its night's quality unchanged, and the values those of the input rearranged |
| ReadinessGauge.Normalized | components/wellness/ReadinessGauge.tsx:17 | the clamped score is within [0, 100] when finite and is the score itself when already in range |
| ReadinessGauge.BandsSpec | components/wellness/ReadinessGauge.tsx:25-32 | error below 40, warning below 60, success below 80, primary from 80, all on the clamped score; a higher score never gets a worse band |
| ReadinessGauge.DisplayInRange | components/wellness/ReadinessGauge.tsx:63 | the shown rounded score lies in [0, 100] and clamping twice changes nothing |
| ReadinessGauge.ArcFill | components/wellness/ReadinessGauge.tsx:22 | the filled share of the ring, score / 100, is between 0 and 1 |
| ReadinessGauge.NaNScore | components/wellness/ReadinessGauge.tsx:17-63 | a NaN score passes the clamp, is drawn in the primary colour and shown as NaN |
| HydrationProgress.Normalized | components/wellness/HydrationProgress.tsx:26 | the clamped percentage is within [0, 100] when finite and is the percentage itself when already in range |
| HydrationProgress.BandsSpec | components/wellness/HydrationProgress.tsx:34-41 | error below 30, warning below 60, info below 90, success from 90, on the clamped percentage; more water never gets a worse band |
| HydrationProgress.ReadoutOf | components/wellness/HydrationProgress.tsx:79-99 | the shown percentage is Math.round of the prop clamped to [0, 100]; it is a number exactly when the clamped prop is, and then lies in [0, 100]; intake and goal are shown as given |
| HydrationProgress.PercentIgnoresAmounts | components/wellness/HydrationProgress.tsx:26-79 | the shown percentage does not depend on the intake or the goal |
| StressLevelIndicator.Normalized | components/wellness/StressLevelIndicator.tsx:16 | the clamped level is within [0, 100] when finite and is the level itself when already in range |
| StressLevelIndicator.BandsSpec | components/wellness/StressLevelIndicator.tsx:24-31 | success below 30, info below 60, warning below 80, error from 80, on the clamped level; more stress is never shown as less severe |
| StressLevelIndicator.DisplayInRange | components/wellness/StressLevelIndicator.tsx:69 | the shown rounded level lies in [0, 100] and clamping twice changes nothing |
| RpeSelector.Values | components/workout/RpeSelector.tsx:32 | max − min + 1 ratings (none for an inverted range), the i-th being min + i |
| RpeSelector.ValuesSpec | components/workout/RpeSelector.tsx:32 | a rating is offered exactly when min ≤ rating ≤ max, and the ratings strictly ascend |
| RpeSelector.DefaultValues | components/workout/RpeSelector.tsx:13 | without min and max the ratings are 1 to 10 |
| RpeSelector.ColorBands | components/workout/RpeSelector.tsx:16-21 | success up to 3, info 4–6, warning 7–8, error from 9; a harder rating never gets a lighter colour |
| RpeSelector.LabelIndex | components/workout/RpeSelector.tsx:23-29 | every rating gets one of the five labels |
| RpeSelector.LabelBands | components/workout/RpeSelector.tsx:23-29 | Very Easy up to 2, Easy 3–4, Moderate 5–6, Hard 7–8, Very Hard from 9; a harder rating never gets an easier label |
| RpeSelector.Render | components/workout/RpeSelector.tsx:34-56 | one button per offered rating in order, highlighted and filled exactly when its rating is the value |
| RpeSelector.PressSelects | components/workout/RpeSelector.tsx:40-55 | pressing the i-th button reports min + i; once stored as the value, that button alone is highlighted in the rating's colour and the label is the rating's |
| RpeSelector.SelectionSpec | components/workout/RpeSelector.tsx:37-55 | some button is highlighted exactly when the value lies in min..max; the label depends only on the value, not on the range |
| StressManagementTips.CategoryIds | components/wellness/StressManagementTips.tsx:22-27 | the ids of the listed categories, in order |
| StressManagementTips.Key | components/wellness/StressManagementTips.tsx:34-60 | a tip key is the common prefix followed by the category name |
| StressManagementTips.GetTips | components/wellness/StressManagementTips.tsx:30-64 | building the table, pushing the extra tips at high stress and looking the category up gives exactly TipsFor |
| StressManagementTips.CategoriesSpec | components/wellness/StressManagementTips.tsx:22-27 | exactly the four categories quick, physical, mental and lifestyle, each once |
| StressManagementTips.TipCounts | components/wellness/StressManagementTips.tsx:31-63 | each category has its 3 base tips, and a stress level ≥ 60 adds exactly one more at the end (4); any other category gives an empty list |
| StressManagementTips.MoreStressMoreTips | components/wellness/StressManagementTips.tsx:55-61 | a higher stress level only adds tips: the tips at a lower level are a prefix of those at a higher one |
| StressManagementTips.TipsAreDistinct | components/wellness/StressManagementTips.tsx:32-61 | no tip is listed twice in a category |
| StressManagementTips.TipNamesCategory | components/wellness/StressManagementTips.tsx:32-61 | every tip belongs to a listed category and its key names that category |
| StressManagementTips.CategoriesShareNoTip | components/wellness/StressManagementTips.tsx:32-61 | no two categories share a tip |
| StressManagementTips.Toggled | components/wellness/StressManagementTips.tsx:66-72 | pressing the expanded category collapses it to none; pressing any other expands it |
| StressManagementTips.ToggledTwice | components/wellness/StressManagementTips.tsx:66-72 | pressing the same category twice restores a collapsed card or the card with that category open, and collapses a card where another was open |
| StressManagementTips.ShownTips | components/wellness/StressManagementTips.tsx:96-104 | a category that is not expanded shows no tips |
| StressManagementTips.OneCategoryOpen | components/wellness/StressManagementTips.tsx:78-107 | at most one category shows tips at a time |
| StressManagementTips.TipsCard.constructor | components/wellness/StressManagementTips.tsx:19 | the card opens with "quick", one of the listed categories, expanded |
| StressManagementTips.TipsCard.ToggleCategory | components/wellness/StressManagementTips.tsx:66-72 | the expanded category becomes Toggled of the old one |

## Left out

- Rendering: layout, styles, icons, animation, the SVG ring geometry (`circumference`, `strokeDashoffset` with `Math.PI`) and the chart-kit props other than labels and data values.
- Floating point: numbers are exact reals or integers; `JsNumber` adds only the infinities and NaN that unguarded divisions and empty `Math.max` calls produce. NaN props are modelled where a component passes them through (the gauges); elsewhere inputs are taken as numbers.
- `Math.sqrt` in the correlation coefficient: the coefficient is kept as numerator and radicand, and its strength bands are decided by comparing squares.
- Time zones, daylight saving and locales: a calendar day is a local timestamp divided by 86,400,000 ms, and `toDateString`, `getDay`, `toLocaleDateString` and `formatDate` are abstract date records or a `format` parameter.
- Text: `toLowerCase`, `trim` and string order cover ASCII only; no Unicode case folding or normalisation.
- Host timers and React: `setInterval`, `AppState` subscriptions, `Date.now`, vibration, effect scheduling and stale closures; ticks, app-state changes and "now" are explicit inputs.
- EnhancedRestTimer.RecommendedRest / DefaultRecommendation: the product (base + RPE adjustment) × multiplier is exact here, so a fair-status product ending in .5 rounds up, while the program's double-precision product with 1.15 lies just below the half and rounds down. For RPE 1 to 10 this happens at base + adjustment 50, 90, 110, 170, 190 and 210, where the program shows 57, 103, 126, 195, 218 and 241 s and the model 58, 104, 127, 196, 219 and 242 s (the default props give 110, so the fair default is 126 s in the program, 127 s here).
- EnhancedRestTimer.PropsChanged: React compares the `recoveryStatus` dependency by object identity; the model compares the status value, so a store update that replaces the object with one of equal status does not reload the recommendation here.
- The random tip pick of `generateTip` in EnhancedRestTimer (its choice is not deterministic and does not affect timing), and the timer colour and progress-ring values.
- Translations: `t()` texts are their keys; the stress tips are keys under `wellness.stress.tips.`.
- Helpers from utility files are parameters, not definitions: `calculateOneRepMax`, `calculateVolume`, `generateProgressionPlan`, `getPersonalRecords`, `formatDate`, `formatTime`, `getDaysInMonth`, `getWeekDays` and `getMonthsInYear`.
- Data loading and stores: the asynchronous `exerciseService` load, `useTipService` (the rest tip of the session timer), the Zustand stores and haptics; their results are inputs.
- SetRow: the text-input state and the `parseFloat`/`parseInt` prefix parsing of `handleWeightChange`/`handleRepsChange`.
- TagSelector: the fixed list of suggested tag texts; a suggestion is any string.
- WorkoutFrequencyChart.ChartData: for the month view it requires every workout of the month to fall on a day within `getDaysInMonth`, which the source takes for granted from its date helper.
- RpeSelector: `min` and `max` are integers; fractional bounds, which `Array.from` would truncate, are not modelled.
- StressManagementTips.GetTips: category ids are looked up in a map, so inherited object keys such as `"constructor"`, which the source's plain object would find, are not modelled.
- CorrelationChart: the axis labels of the scatter plot.
