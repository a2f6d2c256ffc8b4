/**
 * The wellness/performance correlation chart: each completed workout gets a
 * performance score (the share of its sets completed), indexed by calendar day;
 * sleep, stress or recovery samples are paired with the score of the workout on
 * the same or the next day; and the Pearson coefficient of the pairs is
 * classified by strength and direction.
 *
 * `Math.sqrt` is not modelled: the coefficient is kept as its numerator and the
 * radicand under the square root, and the classifications are stated through
 * any value `r` with `r * r * radicand == numerator * numerator` and the sign of
 * the numerator, which is exactly `numerator / sqrt(radicand)`.
 */
module CorrelationChart {
  import opened Common
  import opened Seqs
  import opened WorkoutData

  /** A sleep sample (start time in ms, quality) or a stress sample (time in ms, level). */
  datatype Sample = Sample(time: int, value: real)

  /** A scatter point: the wellness value and the performance score. */
  datatype Point = Point(x: real, y: real)

  // ---------------------------------------------------------------------------
  // Performance score

  function TotalSets(exercises: seq<Exercise>): nat
  {
    if exercises == [] then 0
    else TotalSets(exercises[..|exercises| - 1]) + |exercises[|exercises| - 1].sets|
  }

  function IsCompleted(s: WorkoutSet): bool { s.completed }

  function CompletedSets(exercises: seq<Exercise>): nat
  {
    if exercises == [] then 0
    else CompletedSets(exercises[..|exercises| - 1]) + |Filter(exercises[|exercises| - 1].sets, IsCompleted)|
  }

  lemma {:induction false} CompletedAtMostTotal(exercises: seq<Exercise>)
    ensures CompletedSets(exercises) <= TotalSets(exercises)
  {
    if exercises != [] {
      CompletedAtMostTotal(exercises[..|exercises| - 1]);
    }
  }

  /**
   * The share of completed sets in percent, 0 for a workout without sets; it lies
   * in [0, 100] and is 100 exactly when the workout has sets and all are completed.
   */
  function PerformanceScore(w: Workout): (r: real)
    ensures 0.0 <= r <= 100.0
    ensures TotalSets(w.exercises) == 0 ==> r == 0.0
    ensures r == 100.0 <==> TotalSets(w.exercises) > 0 && CompletedSets(w.exercises) == TotalSets(w.exercises)
  {
    var total := TotalSets(w.exercises);
    var completed := CompletedSets(w.exercises);
    CompletedAtMostTotal(w.exercises);
    if total > 0 then
      PercentOfWhole(completed as real, total as real);
      completed as real / total as real * 100.0
    else 0.0
  }

  // ---------------------------------------------------------------------------
  // `workoutMap`: the score of the last completed workout of each day

  predicate CompletedOn(w: Workout, day: int)
  {
    w.completedAt.Some? && DayOf(w.completedAt.value) == day
  }

  function ScoresByDay(workouts: seq<Workout>): map<int, real>
  {
    if workouts == [] then map[]
    else
      var m := ScoresByDay(workouts[..|workouts| - 1]);
      var w := workouts[|workouts| - 1];
      if w.completedAt.Some? then m[DayOf(w.completedAt.value) := PerformanceScore(w)] else m
  }

  /** The `forEach` that fills `workoutMap`. */
  method BuildWorkoutMap(workouts: seq<Workout>) returns (m: map<int, real>)
    ensures m == ScoresByDay(workouts)
  {
    m := map[];
    for i := 0 to |workouts|
      invariant m == ScoresByDay(workouts[..i])
    {
      assert workouts[..i + 1][..i] == workouts[..i];
      var w := workouts[i];
      if w.completedAt.Some? {
        m := m[DayOf(w.completedAt.value) := PerformanceScore(w)];
      }
    }
    assert workouts[..|workouts|] == workouts;
  }

  /** The position of the last workout completed on `day`, if any. */
  function LastCompletedOn(workouts: seq<Workout>, day: int): (r: Option<nat>)
    ensures r.Some? ==> r.value < |workouts| && CompletedOn(workouts[r.value], day)
    ensures r.Some? ==> forall j :: r.value < j < |workouts| ==> !CompletedOn(workouts[j], day)
    ensures r.None? ==> forall j :: 0 <= j < |workouts| ==> !CompletedOn(workouts[j], day)
  {
    if workouts == [] then None
    else if CompletedOn(workouts[|workouts| - 1], day) then Some(|workouts| - 1)
    else LastCompletedOn(workouts[..|workouts| - 1], day)
  }

  /**
   * Only completed workouts are indexed: a day is a key exactly when some workout
   * was completed on it, and it holds the score of the last of them in input order.
   */
  lemma {:induction false} ScoresByDayLastWins(workouts: seq<Workout>, day: int)
    ensures day in ScoresByDay(workouts) <==> LastCompletedOn(workouts, day).Some?
    ensures day in ScoresByDay(workouts) ==>
      ScoresByDay(workouts)[day] == PerformanceScore(workouts[LastCompletedOn(workouts, day).value])
  {
    if workouts != [] {
      var prefix := workouts[..|workouts| - 1];
      ScoresByDayLastWins(prefix, day);
      var last := LastCompletedOn(prefix, day);
      if !CompletedOn(workouts[|workouts| - 1], day) && last.Some? {
        assert workouts[last.value] == prefix[last.value];
      }
    }
  }

  // ---------------------------------------------------------------------------
  // Sleep and stress: pairing each sample with the workout `offset` days later

  function Paired(samples: seq<Sample>, scores: map<int, real>, offset: int): seq<Point>
  {
    if samples == [] then []
    else
      var rest := Paired(samples[..|samples| - 1], scores, offset);
      var s := samples[|samples| - 1];
      var key := DayOf(s.time) + offset;
      if key in scores then rest + [Point(s.value, scores[key])] else rest
  }

  function HasWorkout(scores: map<int, real>, offset: int): Sample -> bool
  {
    (s: Sample) => DayOf(s.time) + offset in scores
  }

  /** The `forEach` over the samples that pushes a point for every matched sample. */
  method PairSamples(samples: seq<Sample>, scores: map<int, real>, offset: int) returns (points: seq<Point>)
    ensures points == Paired(samples, scores, offset)
  {
    points := [];
    for i := 0 to |samples|
      invariant points == Paired(samples[..i], scores, offset)
    {
      assert samples[..i + 1][..i] == samples[..i];
      var key := DayOf(samples[i].time) + offset;
      if key in scores {
        points := points + [Point(samples[i].value, scores[key])];
      }
    }
    assert samples[..|samples|] == samples;
  }

  /** `points` pairs each kept sample, in order, with the score of the workout `offset` days after it. */
  predicate PairsKept(kept: seq<Sample>, points: seq<Point>, scores: map<int, real>, offset: int)
  {
    && |points| == |kept|
    && forall i :: 0 <= i < |kept| ==>
         DayOf(kept[i].time) + offset in scores &&
         points[i] == Point(kept[i].value, scores[DayOf(kept[i].time) + offset])
  }

  /** Looking at one more sample keeps it, with its point, exactly when it has a workout. */
  lemma PairsKeptStep(kept: seq<Sample>, points: seq<Point>, kept2: seq<Sample>, points2: seq<Point>,
                      scores: map<int, real>, offset: int, s: Sample)
    requires PairsKept(kept, points, scores, offset)
    requires var key := DayOf(s.time) + offset;
      && kept2 == kept + (if key in scores then [s] else [])
      && points2 == points + (if key in scores then [Point(s.value, scores[key])] else [])
    ensures PairsKept(kept2, points2, scores, offset)
  {
    var key := DayOf(s.time) + offset;
    if key in scores {
      assert kept2[..|kept|] == kept && kept2[|kept|] == s;
      assert points2[..|points|] == points;
    } else {
      assert kept2 == kept && points2 == points;
    }
  }

  /**
   * One point per sample that has a workout `offset` days later, in sample order,
   * pairing the sample's value with that workout's score; other samples are dropped.
   */
  lemma {:induction false} PairedSpec(samples: seq<Sample>, scores: map<int, real>, offset: int)
    ensures PairsKept(Filter(samples, HasWorkout(scores, offset)), Paired(samples, scores, offset), scores, offset)
  {
    if samples != [] {
      var prefix := samples[..|samples| - 1];
      var s := samples[|samples| - 1];
      assert samples == prefix + [s];
      PairedSpec(prefix, scores, offset);
      FilterSnoc(prefix, s, HasWorkout(scores, offset));
      assert HasWorkout(scores, offset)(s) == (DayOf(s.time) + offset in scores);
      PairsKeptStep(Filter(prefix, HasWorkout(scores, offset)), Paired(prefix, scores, offset),
                    Filter(samples, HasWorkout(scores, offset)), Paired(samples, scores, offset), scores, offset, s);
    }
  }

  // ---------------------------------------------------------------------------
  // Recovery: the last sleep and stress values of each day, in first-seen order

  datatype DayEntry = DayEntry(sleep: Option<real>, stress: Option<real>)

  /** The `dateMap`: its keys in insertion order and its entries. */
  datatype DateMap = DateMap(keys: seq<int>, entries: map<int, DayEntry>)

  ghost predicate WellFormed(dm: DateMap)
  {
    && NoDup(dm.keys)
    && (forall i :: 0 <= i < |dm.keys| ==> dm.keys[i] in dm.entries)
    && (forall d :: d in dm.entries ==> d in dm.keys)
  }

  /** The entry of a day, or an empty one. */
  function EntryOf(dm: DateMap, day: int): DayEntry
  {
    if day in dm.entries then dm.entries[day] else DayEntry(None, None)
  }

  /** Setting the sleep (`isSleep`) or the stress value of a day, creating the entry when needed. */
  function Put(dm: DateMap, day: int, value: real, isSleep: bool): DateMap
  {
    var e := EntryOf(dm, day);
    var e' := if isSleep then e.(sleep := Some(value)) else e.(stress := Some(value));
    if day in dm.entries then DateMap(dm.keys, dm.entries[day := e'])
    else DateMap(dm.keys + [day], dm.entries[day := e'])
  }

  /** The `forEach` over sleep (`isSleep`) or stress samples. */
  function Collect(dm: DateMap, samples: seq<Sample>, isSleep: bool): DateMap
  {
    if samples == [] then dm
    else
      var s := samples[|samples| - 1];
      Put(Collect(dm, samples[..|samples| - 1], isSleep), DayOf(s.time), s.value, isSleep)
  }

  /** The value of the last sample of a day, if any. */
  function LastOnDay(samples: seq<Sample>, day: int): Option<real>
  {
    if samples == [] then None
    else if DayOf(samples[|samples| - 1].time) == day then Some(samples[|samples| - 1].value)
    else LastOnDay(samples[..|samples| - 1], day)
  }

  lemma {:induction false} LastOnDayExists(samples: seq<Sample>, day: int)
    ensures LastOnDay(samples, day).Some? <==> exists i :: 0 <= i < |samples| && DayOf(samples[i].time) == day
  {
    if samples != [] {
      var prefix := samples[..|samples| - 1];
      LastOnDayExists(prefix, day);
      if DayOf(samples[|samples| - 1].time) != day && exists i :: 0 <= i < |samples| && DayOf(samples[i].time) == day {
        var i :| 0 <= i < |samples| && DayOf(samples[i].time) == day;
        assert prefix[i] == samples[i];
      }
    }
  }

  function Updated(e: DayEntry, last: Option<real>, isSleep: bool): DayEntry
  {
    if last.None? then e else if isSleep then e.(sleep := last) else e.(stress := last)
  }

  /**
   * Collecting samples keeps the map well formed, and afterwards a day's entry has
   * the value of the last sample of that day in the collected field.
   */
  lemma {:induction false} CollectSpec(dm: DateMap, samples: seq<Sample>, isSleep: bool, day: int)
    requires WellFormed(dm)
    ensures WellFormed(Collect(dm, samples, isSleep))
    ensures day in Collect(dm, samples, isSleep).entries <==> day in dm.entries || LastOnDay(samples, day).Some?
    ensures EntryOf(Collect(dm, samples, isSleep), day) == Updated(EntryOf(dm, day), LastOnDay(samples, day), isSleep)
  {
    if samples != [] {
      var prefix := samples[..|samples| - 1];
      var s := samples[|samples| - 1];
      var c := Collect(dm, prefix, isSleep);
      CollectSpec(dm, prefix, isSleep, day);
      CollectSpec(dm, prefix, isSleep, DayOf(s.time));
      if DayOf(s.time) !in c.entries {
        assert DayOf(s.time) !in c.keys;
      }
    }
  }

  /** `dateMap`: first the sleep samples, then the stress samples. */
  function DateMapOf(sleep: seq<Sample>, stress: seq<Sample>): DateMap
  {
    Collect(Collect(DateMap([], map[]), sleep, true), stress, false)
  }

  /**
   * The date map has one key per day with a sleep or stress sample, and each entry
   * holds the last sleep value and the last stress value of its day.
   */
  lemma DateMapEntries(sleep: seq<Sample>, stress: seq<Sample>, day: int)
    ensures WellFormed(DateMapOf(sleep, stress))
    ensures day in DateMapOf(sleep, stress).entries <==>
      (exists i :: 0 <= i < |sleep| && DayOf(sleep[i].time) == day) ||
      (exists i :: 0 <= i < |stress| && DayOf(stress[i].time) == day)
    ensures day in DateMapOf(sleep, stress).entries ==>
      DateMapOf(sleep, stress).entries[day] == DayEntry(LastOnDay(sleep, day), LastOnDay(stress, day))
  {
    var empty := DateMap([], map[]);
    CollectSpec(empty, sleep, true, day);
    CollectSpec(Collect(empty, sleep, true), stress, false, day);
    LastOnDayExists(sleep, day);
    LastOnDayExists(stress, day);
  }

  /** The recovery score: 70% of the sleep quality plus 30% of the inverted stress, or 30 without stress. */
  function RecoveryScore(sleep: real, stress: Option<real>): real
  {
    (if stress.Some? then (100.0 - stress.value) * 0.3 else 30.0) + sleep * 0.7
  }

  lemma RecoveryScoreBounds(sleep: real, stress: Option<real>)
    requires 0.0 <= sleep <= 100.0
    requires stress.Some? ==> 0.0 <= stress.value <= 100.0
    ensures 0.0 <= RecoveryScore(sleep, stress) <= 100.0
    ensures stress.None? ==> RecoveryScore(sleep, stress) == 0.7 * sleep + 30.0
    ensures stress.Some? ==> RecoveryScore(sleep, stress) == 0.7 * sleep + 0.3 * (100.0 - stress.value)
  {
  }

  /** The `dateMap.forEach` that pushes a point for every day with sleep and a workout the next day. */
  function RecoveryPoints(keys: seq<int>, entries: map<int, DayEntry>, scores: map<int, real>): seq<Point>
    requires forall i :: 0 <= i < |keys| ==> keys[i] in entries
  {
    if keys == [] then []
    else
      var rest := RecoveryPoints(keys[..|keys| - 1], entries, scores);
      var day := keys[|keys| - 1];
      var e := entries[day];
      if day + 1 in scores && e.sleep.Some? then rest + [Point(RecoveryScore(e.sleep.value, e.stress), scores[day + 1])]
      else rest
  }

  function HasRecoveryPoint(entries: map<int, DayEntry>, scores: map<int, real>): int -> bool
  {
    (day: int) => day in entries && entries[day].sleep.Some? && day + 1 in scores
  }

  /**
   * `points` pairs each kept day, in order, with its recovery score and the
   * score of the workout the day after; every kept day has sleep.
   */
  predicate RecoveryPairs(kept: seq<int>, points: seq<Point>, entries: map<int, DayEntry>, scores: map<int, real>)
  {
    && |points| == |kept|
    && forall i :: 0 <= i < |kept| ==>
         kept[i] in entries && entries[kept[i]].sleep.Some? && kept[i] + 1 in scores &&
         points[i] == Point(RecoveryScore(entries[kept[i]].sleep.value, entries[kept[i]].stress), scores[kept[i] + 1])
  }

  /** Looking at one more day keeps it, with its point, exactly when it has sleep and a workout the next day. */
  lemma RecoveryPairsStep(kept: seq<int>, points: seq<Point>, kept2: seq<int>, points2: seq<Point>,
                          entries: map<int, DayEntry>, scores: map<int, real>, d: int)
    requires RecoveryPairs(kept, points, entries, scores)
    requires d in entries
    requires var e := entries[d];
      && kept2 == kept + (if d + 1 in scores && e.sleep.Some? then [d] else [])
      && points2 == points + (if d + 1 in scores && e.sleep.Some? then [Point(RecoveryScore(e.sleep.value, e.stress), scores[d + 1])] else [])
    ensures RecoveryPairs(kept2, points2, entries, scores)
  {
    if d + 1 in scores && entries[d].sleep.Some? {
      assert kept2[..|kept|] == kept && kept2[|kept|] == d;
      assert points2[..|points|] == points;
    } else {
      assert kept2 == kept && points2 == points;
    }
  }

  /**
   * One point per date-map day, in key order, that has sleep and a workout the next
   * day; days with only stress are skipped.
   */
  lemma {:induction false} RecoveryPointsSpec(keys: seq<int>, entries: map<int, DayEntry>, scores: map<int, real>)
    requires forall i :: 0 <= i < |keys| ==> keys[i] in entries
    ensures RecoveryPairs(Filter(keys, HasRecoveryPoint(entries, scores)), RecoveryPoints(keys, entries, scores), entries, scores)
  {
    if keys != [] {
      var prefix := keys[..|keys| - 1];
      var d := keys[|keys| - 1];
      assert keys == prefix + [d];
      RecoveryPointsSpec(prefix, entries, scores);
      FilterSnoc(prefix, d, HasRecoveryPoint(entries, scores));
      assert HasRecoveryPoint(entries, scores)(d) == (d + 1 in scores && entries[d].sleep.Some?);
      RecoveryPairsStep(Filter(prefix, HasRecoveryPoint(entries, scores)), RecoveryPoints(prefix, entries, scores),
                        Filter(keys, HasRecoveryPoint(entries, scores)), RecoveryPoints(keys, entries, scores),
                        entries, scores, d);
    }
  }

  /** The two `forEach` loops that fill `dateMap`. */
  method BuildDateMap(sleep: seq<Sample>, stress: seq<Sample>) returns (keys: seq<int>, entries: map<int, DayEntry>)
    ensures DateMap(keys, entries) == DateMapOf(sleep, stress)
  {
    keys, entries := [], map[];
    for i := 0 to |sleep|
      invariant DateMap(keys, entries) == Collect(DateMap([], map[]), sleep[..i], true)
    {
      assert sleep[..i + 1][..i] == sleep[..i];
      var day := DayOf(sleep[i].time);
      if day !in entries {
        keys := keys + [day];
        entries := entries[day := DayEntry(Some(sleep[i].value), None)];
      } else {
        entries := entries[day := entries[day].(sleep := Some(sleep[i].value))];
      }
    }
    assert sleep[..|sleep|] == sleep;
    ghost var afterSleep := DateMap(keys, entries);
    for i := 0 to |stress|
      invariant DateMap(keys, entries) == Collect(afterSleep, stress[..i], false)
    {
      assert stress[..i + 1][..i] == stress[..i];
      var day := DayOf(stress[i].time);
      if day !in entries {
        keys := keys + [day];
        entries := entries[day := DayEntry(None, Some(stress[i].value))];
      } else {
        entries := entries[day := entries[day].(stress := Some(stress[i].value))];
      }
    }
    assert stress[..|stress|] == stress;
  }

  // ---------------------------------------------------------------------------
  // `dataPoints`

  function DataPoints(metric: string, sleep: seq<Sample>, stress: seq<Sample>, workouts: seq<Workout>): seq<Point>
  {
    var scores := ScoresByDay(workouts);
    if metric == "sleep" then Paired(sleep, scores, 1)
    else if metric == "stress" then Paired(stress, scores, 0)
    else if metric == "recovery" then
      var dm := DateMapOf(sleep, stress);
      DateMapEntries(sleep, stress, 0);
      RecoveryPoints(dm.keys, dm.entries, scores)
    else []
  }

  /** The `useMemo` body: the workout map, then the points of the chosen metric. */
  method BuildDataPoints(metric: string, sleep: seq<Sample>, stress: seq<Sample>, workouts: seq<Workout>)
    returns (points: seq<Point>)
    ensures points == DataPoints(metric, sleep, stress, workouts)
  {
    var scores := BuildWorkoutMap(workouts);
    points := [];
    if metric == "sleep" {
      points := PairSamples(sleep, scores, 1);
    } else if metric == "stress" {
      points := PairSamples(stress, scores, 0);
    } else if metric == "recovery" {
      var keys, entries := BuildDateMap(sleep, stress);
      DateMapEntries(sleep, stress, 0);
      for i := 0 to |keys|
        invariant points == RecoveryPoints(keys[..i], entries, scores)
      {
        assert keys[..i + 1][..i] == keys[..i];
        var e := entries[keys[i]];
        if keys[i] + 1 in scores && e.sleep.Some? {
          points := points + [Point(RecoveryScore(e.sleep.value, e.stress), scores[keys[i] + 1])];
        }
      }
      assert keys[..|keys|] == keys;
    }
  }

  /** An unknown metric yields no points. */
  lemma UnknownMetricHasNoPoints(metric: string, sleep: seq<Sample>, stress: seq<Sample>, workouts: seq<Workout>)
    requires metric != "sleep" && metric != "stress" && metric != "recovery"
    ensures DataPoints(metric, sleep, stress, workouts) == []
  {
  }

  // ---------------------------------------------------------------------------
  // `calculateCorrelation`

  function X(p: Point): real { p.x }
  function Y(p: Point): real { p.y }
  function XY(p: Point): real { p.x * p.y }
  function XX(p: Point): real { p.x * p.x }
  function YY(p: Point): real { p.y * p.y }

  /** n·Σf² − (Σf)², one factor of the radicand. */
  function Spread(s: seq<Point>, f: Point -> real, g: Point -> real): real
  {
    |s| as real * SumBy(s, g) - SumBy(s, f) * SumBy(s, f)
  }

  function Numerator(s: seq<Point>): real
  {
    |s| as real * SumBy(s, XY) - SumBy(s, X) * SumBy(s, Y)
  }

  function Radicand(s: seq<Point>): real
  {
    Spread(s, X, XX) * Spread(s, Y, YY)
  }

  /** Σ(f − a)², written out: it is never negative. */
  lemma {:induction false} DeviationNonNegative(s: seq<Point>, f: Point -> real, g: Point -> real, a: real)
    requires forall i :: 0 <= i < |s| ==> g(s[i]) == f(s[i]) * f(s[i])
    ensures SumBy(s, g) - 2.0 * a * SumBy(s, f) + |s| as real * a * a >= 0.0
  {
    if s != [] {
      var p := s[..|s| - 1];
      var v := f(s[|s| - 1]);
      DeviationNonNegative(p, f, g, a);
      assert g(s[|s| - 1]) - 2.0 * a * v + a * a == (v - a) * (v - a);
      assert |s| as real * a * a == |p| as real * a * a + a * a;
    }
  }

  /** n·Σf² − (Σf)² ≥ 0, so the radicand is a product of two non-negative factors. */
  lemma {:induction false} SpreadNonNegative(s: seq<Point>, f: Point -> real, g: Point -> real)
    requires forall i :: 0 <= i < |s| ==> g(s[i]) == f(s[i]) * f(s[i])
    ensures Spread(s, f, g) >= 0.0
  {
    if s != [] {
      var p := s[..|s| - 1];
      var n, q, t, a := |p| as real, SumBy(p, g), SumBy(p, f), f(s[|s| - 1]);
      SpreadNonNegative(p, f, g);
      DeviationNonNegative(p, f, g, a);
      assert SumBy(s, g) == q + a * a;
      assert SumBy(s, f) == t + a;
      assert (n + 1.0) * (q + a * a) - (t + a) * (t + a) == (n * q - t * t) + (q - 2.0 * a * t + n * a * a);
    }
  }

  lemma RadicandNonNegative(s: seq<Point>)
    ensures Radicand(s) >= 0.0
  {
    SpreadNonNegative(s, X, XX);
    SpreadNonNegative(s, Y, YY);
  }

  // Cauchy–Schwarz: the triple (Sx, N, Sy) of the two factors of the radicand and
  // the numerator is a positive semi-definite 2×2 matrix, so N² ≤ Sx·Sy.

  /** A symmetric 2×2 matrix [[xx, xy], [xy, yy]]. */
  datatype Gram = Gram(xx: real, xy: real, yy: real)

  predicate Psd(g: Gram)
  {
    g.xx >= 0.0 && g.yy >= 0.0 && g.xy * g.xy <= g.xx * g.yy
  }

  function Plus(g: Gram, h: Gram): Gram
  {
    Gram(g.xx + h.xx, g.xy + h.xy, g.yy + h.yy)
  }

  /** [[u², uv], [uv, v²]]: the matrix of one point's deviation (u, v). */
  function RankOne(u: real, v: real): Gram
  {
    Gram(u * u, u * v, v * v)
  }

  /** The sum over `s` of the deviation matrices of its points from `q`. */
  function Deviations(s: seq<Point>, q: Point): Gram
  {
    if s == [] then Gram(0.0, 0.0, 0.0)
    else Plus(Deviations(s[..|s| - 1], q), RankOne(s[|s| - 1].x - q.x, s[|s| - 1].y - q.y))
  }

  /** The count and the sums of x, y, x², xy and y² of a point list. */
  datatype Sums = Sums(n: real, x: real, y: real, xx: real, xy: real, yy: real)

  function SumsOf(s: seq<Point>): Sums
  {
    Sums(|s| as real, SumBy(s, X), SumBy(s, Y), SumBy(s, XX), SumBy(s, XY), SumBy(s, YY))
  }

  function AddPoint(m: Sums, p: Point): Sums
  {
    Sums(m.n + 1.0, m.x + p.x, m.y + p.y, m.xx + p.x * p.x, m.xy + p.x * p.y, m.yy + p.y * p.y)
  }

  /** (Sx, N, Sy) computed from the sums. */
  function GramOfSums(m: Sums): Gram
  {
    Gram(m.n * m.xx - m.x * m.x, m.n * m.xy - m.x * m.y, m.n * m.yy - m.y * m.y)
  }

  /** The deviation matrix about `q` computed from the sums: Σ(x − qx)², Σ(x − qx)(y − qy), Σ(y − qy)². */
  function MomentsAbout(m: Sums, q: Point): Gram
  {
    Gram(m.xx - 2.0 * q.x * m.x + m.n * q.x * q.x,
         m.xy - q.x * m.y - q.y * m.x + m.n * q.x * q.y,
         m.yy - 2.0 * q.y * m.y + m.n * q.y * q.y)
  }

  /** (Sx, N, Sy) of a point list. */
  function GramOf(s: seq<Point>): Gram
  {
    Gram(Spread(s, X, XX), Numerator(s), Spread(s, Y, YY))
  }

  lemma SumsOfSnoc(s: seq<Point>)
    requires s != []
    ensures SumsOf(s) == AddPoint(SumsOf(s[..|s| - 1]), s[|s| - 1])
  {
  }

  /** Adding a point adds its deviation matrix to every deviation matrix. */
  lemma AddPointMoments(m: Sums, p: Point, q: Point)
    ensures MomentsAbout(AddPoint(m, p), q) == Plus(MomentsAbout(m, q), RankOne(p.x - q.x, p.y - q.y))
  {
    AddPointMomentsXX(m, p, q);
    AddPointMomentsXY(m, p, q);
    AddPointMomentsYY(m, p, q);
  }

  lemma AddPointMomentsXX(m: Sums, p: Point, q: Point)
    ensures MomentsAbout(AddPoint(m, p), q).xx == MomentsAbout(m, q).xx + RankOne(p.x - q.x, p.y - q.y).xx
  {
    DeviationStep(m.n, m.x, m.xx, p.x, q.x);
  }

  lemma AddPointMomentsYY(m: Sums, p: Point, q: Point)
    ensures MomentsAbout(AddPoint(m, p), q).yy == MomentsAbout(m, q).yy + RankOne(p.x - q.x, p.y - q.y).yy
  {
    DeviationStep(m.n, m.y, m.yy, p.y, q.y);
  }

  lemma AddPointMomentsXY(m: Sums, p: Point, q: Point)
    ensures MomentsAbout(AddPoint(m, p), q).xy == MomentsAbout(m, q).xy + RankOne(p.x - q.x, p.y - q.y).xy
  {
    CrossDeviationStep(m.n, m.x, m.y, m.xy, p.x, p.y, q.x, q.y);
  }

  lemma DeviationStep(n: real, sx: real, sxx: real, x: real, qx: real)
    ensures (sxx + x * x) - 2.0 * qx * (sx + x) + (n + 1.0) * qx * qx
         == (sxx - 2.0 * qx * sx + n * qx * qx) + (x - qx) * (x - qx)
  {
  }

  lemma CrossDeviationStep(n: real, sx: real, sy: real, sxy: real, x: real, y: real, qx: real, qy: real)
    ensures (sxy + x * y) - qx * (sy + y) - qy * (sx + x) + (n + 1.0) * qx * qy
         == (sxy - qx * sy - qy * sx + n * qx * qy) + (x - qx) * (y - qy)
  {
  }

  /** Adding a point q adds to (Sx, N, Sy) the deviation matrix of the earlier points about q. */
  lemma AddPointGram(m: Sums, q: Point)
    ensures GramOfSums(AddPoint(m, q)) == Plus(GramOfSums(m), MomentsAbout(m, q))
  {
    AddPointGramXX(m, q);
    AddPointGramXY(m, q);
    AddPointGramYY(m, q);
  }

  lemma AddPointGramXX(m: Sums, q: Point)
    ensures GramOfSums(AddPoint(m, q)).xx == GramOfSums(m).xx + MomentsAbout(m, q).xx
  {
    SpreadStep(m.n, m.x, m.xx, q.x);
  }

  lemma AddPointGramYY(m: Sums, q: Point)
    ensures GramOfSums(AddPoint(m, q)).yy == GramOfSums(m).yy + MomentsAbout(m, q).yy
  {
    SpreadStep(m.n, m.y, m.yy, q.y);
  }

  lemma AddPointGramXY(m: Sums, q: Point)
    ensures GramOfSums(AddPoint(m, q)).xy == GramOfSums(m).xy + MomentsAbout(m, q).xy
  {
    CrossSpreadStep(m.n, m.x, m.y, m.xy, q.x, q.y);
  }

  lemma SpreadStep(n: real, sx: real, sxx: real, x: real)
    ensures (n + 1.0) * (sxx + x * x) - (sx + x) * (sx + x)
         == (n * sxx - sx * sx) + (sxx - 2.0 * x * sx + n * x * x)
  {
  }

  lemma CrossSpreadStep(n: real, sx: real, sy: real, sxy: real, x: real, y: real)
    ensures (n + 1.0) * (sxy + x * y) - (sx + x) * (sy + y)
         == (n * sxy - sx * sy) + (sxy - x * sy - y * sx + n * x * y)
  {
  }

  /** (Sx, N, Sy) of a point list is that of its sums. */
  lemma GramOfIsSums(s: seq<Point>)
    ensures GramOf(s) == GramOfSums(SumsOf(s))
  {
  }

  /** Appending q adds to (Sx, N, Sy) the deviation matrix of the earlier points about q. */
  lemma GramSnoc(s: seq<Point>)
    requires s != []
    ensures GramOf(s) == Plus(GramOf(s[..|s| - 1]), Deviations(s[..|s| - 1], s[|s| - 1]))
  {
    var p, q := s[..|s| - 1], s[|s| - 1];
    GramOfIsSums(s);
    GramOfIsSums(p);
    SumsOfSnoc(s);
    AddPointGram(SumsOf(p), q);
    DeviationsAbout(p, q);
  }

  lemma {:induction false} DeviationsAbout(s: seq<Point>, q: Point)
    ensures Deviations(s, q) == MomentsAbout(SumsOf(s), q)
  {
    if s != [] {
      var p := s[..|s| - 1];
      DeviationsAbout(p, q);
      SumsOfSnoc(s);
      AddPointMoments(SumsOf(p), s[|s| - 1], q);
    }
  }

  lemma {:induction false} DeviationsPsd(s: seq<Point>, q: Point)
    ensures Psd(Deviations(s, q))
  {
    if s != [] {
      var p := s[..|s| - 1];
      DeviationsPsd(p, q);
      RankOnePsd(s[|s| - 1].x - q.x, s[|s| - 1].y - q.y);
      PsdPlus(Deviations(p, q), RankOne(s[|s| - 1].x - q.x, s[|s| - 1].y - q.y));
    }
  }

  /** (Sx, N, Sy) is positive semi-definite for every point list. */
  lemma {:induction false} GramPsd(s: seq<Point>)
    ensures Psd(GramOf(s))
  {
    if s == [] {
      assert GramOf(s) == Gram(0.0, 0.0, 0.0);
    } else {
      var p, q := s[..|s| - 1], s[|s| - 1];
      GramPsd(p);
      DeviationsPsd(p, q);
      PsdPlus(GramOf(p), Deviations(p, q));
      GramSnoc(s);
    }
  }

  /**
   * Cauchy–Schwarz for the coefficient: (nΣxy − ΣxΣy)² ≤ (nΣx² − (Σx)²)(nΣy² − (Σy)²),
   * so the coefficient lies in [−1, 1].
   */
  lemma NumeratorSquaredBelowRadicand(s: seq<Point>)
    ensures Numerator(s) * Numerator(s) <= Radicand(s)
  {
    GramPsd(s);
  }

  lemma RankOnePsd(u: real, v: real)
    ensures Psd(RankOne(u, v))
  {
    assert (u * v) * (u * v) == (u * u) * (v * v);
  }

  /** For a, c ≥ 0 and b ≤ c: a·b ≤ a·c. */
  lemma MulMonotone(a: real, b: real, c: real)
    requires a >= 0.0 && b <= c
    ensures a * b <= a * c
  {
    MulNonNegative(a, c - b);
  }

  /** b² ≤ a·c and e² ≤ d·f, all of a, c, d, f non-negative, give (b·e)² ≤ (a·f)·(d·c). */
  lemma ProductOfBounds(a: real, b: real, c: real, d: real, e: real, f: real)
    requires a >= 0.0 && c >= 0.0 && d >= 0.0 && f >= 0.0
    requires b * b <= a * c && e * e <= d * f
    ensures (b * e) * (b * e) <= (a * f) * (d * c)
  {
    MulNonNegative(d, f);
    MulSquare(b);
    MulMonotone(d * f, b * b, a * c);
    MulMonotone(b * b, e * e, d * f);
    assert (b * e) * (b * e) == (b * b) * (e * e);
    assert (a * f) * (d * c) == (d * f) * (a * c);
  }

  /** For non-negative u, v with w² ≤ u·v: 2w ≤ u + v. */
  lemma TwiceBelowSum(u: real, v: real, w: real)
    requires u >= 0.0 && v >= 0.0 && w * w <= u * v
    ensures 2.0 * w <= u + v
  {
    if 2.0 * w > 0.0 {
      MulSquare(u - v);
      assert (u + v) * (u + v) == (u - v) * (u - v) + 4.0 * (u * v);
      assert (2.0 * w) * (2.0 * w) == 4.0 * (w * w);
      SquareBelow(u + v, 2.0 * w);
    }
  }

  /** The sum of two positive semi-definite matrices is positive semi-definite. */
  lemma PsdPlus(g: Gram, h: Gram)
    requires Psd(g) && Psd(h)
    ensures Psd(Plus(g, h))
  {
    var a, b, c, d, e, f := g.xx, g.xy, g.yy, h.xx, h.xy, h.yy;
    MulNonNegative(a, f);
    MulNonNegative(d, c);
    ProductOfBounds(a, b, c, d, e, f);
    TwiceBelowSum(a * f, d * c, b * e);
    assert (b + e) * (b + e) == b * b + 2.0 * (b * e) + e * e;
    assert (a + d) * (c + f) == a * c + a * f + d * c + d * f;
  }

  lemma MulSquare(x: real)
    ensures x * x >= 0.0
  {
    if x < 0.0 {
      MulNonNegative(-x, -x);
    } else {
      MulNonNegative(x, x);
    }
  }

  /**
   * The coefficient: `Zero` for the literal `0` the source returns, or the quotient
   * `numerator / sqrt(radicand)` kept as its two parts.
   */
  datatype Coefficient = Zero | Quotient(numerator: real, radicand: real)

  /** `calculateCorrelation`: 0 below two points or for a zero denominator; never a square root of a negative number. */
  function Correlation(s: seq<Point>): (c: Coefficient)
    ensures c.Quotient? ==> c.radicand > 0.0
  {
    if |s| < 2 then Zero
    else
      RadicandNonNegative(s);
      if Radicand(s) == 0.0 then Zero else Quotient(Numerator(s), Radicand(s))
  }

  /** The quotient never exceeds 1 in magnitude: its numerator squared is at most its radicand. */
  lemma CorrelationBounded(s: seq<Point>)
    ensures Correlation(s).Quotient? ==> Correlation(s).numerator * Correlation(s).numerator <= Correlation(s).radicand
  {
    var c := Correlation(s);
    if c.Quotient? {
      assert c == Quotient(Numerator(s), Radicand(s));
      NumeratorSquaredBelowRadicand(s);
    }
  }

  /**
   * The coefficient is 0 with fewer than two points or a zero denominator, and
   * otherwise the quotient of nΣxy − ΣxΣy by the root of (nΣx² − (Σx)²)(nΣy² − (Σy)²).
   */
  lemma CorrelationCases(s: seq<Point>)
    ensures Correlation(s) == Zero <==> |s| < 2 || Radicand(s) == 0.0
    ensures Correlation(s).Quotient? ==> Correlation(s).numerator == Numerator(s) && Correlation(s).radicand == Radicand(s)
  {
  }

  function Swap(p: Point): Point { Point(p.y, p.x) }

  lemma SwapSums(s: seq<Point>)
    ensures SumBy(Map(s, Swap), X) == SumBy(s, Y)
    ensures SumBy(Map(s, Swap), Y) == SumBy(s, X)
    ensures SumBy(Map(s, Swap), XX) == SumBy(s, YY)
    ensures SumBy(Map(s, Swap), YY) == SumBy(s, XX)
    ensures SumBy(Map(s, Swap), XY) == SumBy(s, XY)
  {
    assert SumBy(Map(s, Swap), X) == SumBy(s, Y) by { SumByMapInto(s, Swap, X, Y); }
    assert SumBy(Map(s, Swap), Y) == SumBy(s, X) by { SumByMapInto(s, Swap, Y, X); }
    assert SumBy(Map(s, Swap), XX) == SumBy(s, YY) by { SumByMapInto(s, Swap, XX, YY); }
    assert SumBy(Map(s, Swap), YY) == SumBy(s, XX) by { SumByMapInto(s, Swap, YY, XX); }
    assert SumBy(Map(s, Swap), XY) == SumBy(s, XY) by { SumByMapInto(s, Swap, XY, XY); }
  }

  /** Swapping x and y in every point leaves the coefficient unchanged. */
  lemma SwapSymmetric(s: seq<Point>)
    ensures Correlation(Map(s, Swap)) == Correlation(s)
  {
    SwapSums(s);
  }

  /**
   * `r` is the value of the coefficient: 0 for `Zero`, and `numerator / sqrt(radicand)`
   * for a quotient, i.e. the number with r² · radicand = numerator² and the sign of
   * the numerator.
   */
  predicate IsValue(c: Coefficient, r: real)
  {
    match c
    case Zero => r == 0.0
    case Quotient(num, rad) => r * r * rad == num * num && (r > 0.0 <==> num > 0.0) && (r < 0.0 <==> num < 0.0)
  }

  function Abs(r: real): real { if r < 0.0 then -r else r }

  datatype Strength = Weak | Moderate | Strong
  datatype Direction = Positive | Negative | NoDirection

  /** `getCorrelationDescription`, with |r| < k decided as numerator² < k² · radicand. */
  function StrengthOf(c: Coefficient): Strength
  {
    match c
    case Zero => Weak
    case Quotient(num, rad) =>
      if num * num < 0.09 * rad then Weak
      else if num * num < 0.49 * rad then Moderate
      else Strong
  }

  /** `getCorrelationDirection`, with r > 0.1 decided as numerator > 0 and numerator² > 0.01 · radicand. */
  function DirectionOf(c: Coefficient): Direction
  {
    match c
    case Zero => NoDirection
    case Quotient(num, rad) =>
      if num > 0.0 && num * num > 0.01 * rad then Positive
      else if num < 0.0 && num * num > 0.01 * rad then Negative
      else NoDirection
  }

  /** For non-negative a and k, a < k exactly when a² < k². */
  lemma SquareBelow(a: real, k: real)
    requires a >= 0.0 && k >= 0.0
    ensures a < k <==> a * a < k * k
  {
    if a < k {
      MulNonNegative(k - a, a);
      MulPositive(k - a, k);
      assert (k - a) * a == k * a - a * a;
      assert (k - a) * k == k * k - a * k;
    } else {
      MulNonNegative(a - k, a);
      MulNonNegative(a - k, k);
      assert (a - k) * a == a * a - k * a;
      assert (a - k) * k == a * k - k * k;
    }
  }

  /** Scaling by a positive d keeps a strict comparison. */
  lemma ScaleBelow(u: real, v: real, d: real)
    requires d > 0.0
    ensures u < v <==> u * d < v * d
  {
    if u < v {
      assert (v - u) * d > 0.0;
    } else {
      assert (u - v) * d >= 0.0;
    }
  }

  /** |r| < k exactly when r² · d < k² · d, for a positive d and non-negative k. */
  lemma AbsBelow(r: real, k: real, d: real)
    requires k >= 0.0 && d > 0.0
    ensures Abs(r) < k <==> r * r * d < k * k * d
  {
    SquareBelow(Abs(r), k);
    assert Abs(r) * Abs(r) == r * r;
    ScaleBelow(r * r, k * k, d);
  }

  /** |r| against k decided on the squared quantities: q = r² · d against k2 = k² times d. */
  lemma AbsBelowSquared(r: real, k: real, k2: real, d: real, q: real)
    requires k >= 0.0 && d > 0.0 && k2 == k * k && q == r * r * d
    ensures Abs(r) < k <==> q < k2 * d
    ensures k < Abs(r) <==> k2 * d < q
  {
    AbsBelow(r, k, d);
    SquareBelow(k, Abs(r));
    assert Abs(r) * Abs(r) == r * r;
    ScaleBelow(k * k, r * r, d);
  }

  /** Strength is weak for |r| < 0.3, moderate for |r| < 0.7 and strong otherwise. */
  lemma StrengthBands(c: Coefficient, r: real)
    requires c.Quotient? ==> c.radicand > 0.0
    requires IsValue(c, r)
    ensures StrengthOf(c) == (if Abs(r) < 0.3 then Weak else if Abs(r) < 0.7 then Moderate else Strong)
  {
    if c.Quotient? {
      var num, d := c.numerator, c.radicand;
      AbsBelowSquared(r, 0.3, 0.09, d, num * num);
      AbsBelowSquared(r, 0.7, 0.49, d, num * num);
    }
  }

  /** Direction is positive for r > 0.1, negative for r < −0.1 and none otherwise. */
  lemma DirectionBands(c: Coefficient, r: real)
    requires c.Quotient? ==> c.radicand > 0.0
    requires IsValue(c, r)
    ensures DirectionOf(c) == (if r > 0.1 then Positive else if r < -0.1 then Negative else NoDirection)
  {
    if c.Quotient? {
      var num, d := c.numerator, c.radicand;
      AbsBelowSquared(r, 0.1, 0.01, d, num * num);
    }
  }

  /**
   * The value of the coefficient lies in [−1, 1]; a strong one lies between 0.7
   * and 1 in magnitude.
   */
  lemma CoefficientInRange(c: Coefficient, r: real)
    requires c.Quotient? ==> c.radicand > 0.0 && c.numerator * c.numerator <= c.radicand
    requires IsValue(c, r)
    ensures -1.0 <= r <= 1.0
    ensures StrengthOf(c) == Strong ==> 0.7 <= Abs(r) <= 1.0
  {
    if c.Quotient? {
      AbsBelowSquared(r, 1.0, 1.0, c.radicand, c.numerator * c.numerator);
      StrengthBands(c, r);
    }
  }

  /** The colour of the printed coefficient. */
  datatype ValueColor = Muted | SuccessText | ErrorText

  function ValueColorOf(c: Coefficient): ValueColor
  {
    if StrengthOf(c) == Weak then Muted
    else if c.Quotient? && c.numerator > 0.0 then SuccessText
    else ErrorText
  }

  /** Weak coefficients are muted; others are green when positive and red when negative. */
  lemma ValueColorBands(c: Coefficient, r: real)
    requires c.Quotient? ==> c.radicand > 0.0
    requires IsValue(c, r)
    ensures ValueColorOf(c) == (if Abs(r) < 0.3 then Muted else if r > 0.0 then SuccessText else ErrorText)
  {
    StrengthBands(c, r);
  }

  /** The chart and the coefficient are shown only from two points on. */
  function ShowsChart(points: seq<Point>): bool { |points| > 1 }
}
