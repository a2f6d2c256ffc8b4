/**
 * The workout frequency bar chart: completed workouts counted per weekday of
 * the current week, per day of the current month, per month of the current
 * year, or per year over all time.
 */
module WorkoutFrequencyChart {
  import opened Common
  import opened Seqs
  import opened Text
  import opened DayGroups

  /**
   * A workout's date as `new Date(workout.date)` reports it in local time:
   * the instant in ms, the full year, the month (0 is January), the day of
   * the month and the weekday (0 is Sunday).
   */
  datatype Stamp = Stamp(ms: int, year: int, month: int, date: int, weekday: int)

  /** The ranges a `Date` guarantees for its calendar fields. */
  predicate ValidStamp(s: Stamp)
  {
    0 <= s.month < 12 && 1 <= s.date <= 31 && 0 <= s.weekday < 7
  }

  // ---------------------------------------------------------------------------
  // Counting into a zero-filled array

  /** How many keys name bucket `b`. */
  function CountOf(keys: seq<Option<int>>, b: int): nat
  {
    if keys == [] then 0
    else CountOf(keys[..|keys| - 1], b) + (if keys[|keys| - 1] == Some(b) then 1 else 0)
  }

  /** How many keys name a bucket at all. */
  function Passing(keys: seq<Option<int>>): nat
  {
    if keys == [] then 0
    else Passing(keys[..|keys| - 1]) + (if keys[|keys| - 1].Some? then 1 else 0)
  }

  /** The bucket counts after counting every key into `n` buckets. */
  function Counts(n: nat, keys: seq<Option<int>>): (r: seq<int>)
    ensures |r| == n
    ensures forall b :: 0 <= b < n ==> r[b] == CountOf(keys, b)
  {
    seq(n, b requires 0 <= b < n => CountOf(keys, b))
  }

  /** Every key that names a bucket names one of the `n` buckets. */
  predicate InRange(keys: seq<Option<int>>, n: nat)
  {
    forall i :: 0 <= i < |keys| && keys[i].Some? ==> 0 <= keys[i].value < n
  }

  lemma CountsSnoc(n: nat, keys: seq<Option<int>>, k: Option<int>)
    requires k.Some? ==> 0 <= k.value < n
    ensures k.None? ==> Counts(n, keys + [k]) == Counts(n, keys)
    ensures k.Some? ==> Counts(n, keys + [k]) == Counts(n, keys)[k.value := Counts(n, keys)[k.value] + 1]
  {
    assert (keys + [k])[..|keys|] == keys;
  }

  lemma {:induction false} NoCountsAddUp(n: nat)
    ensures SumInt(Counts(n, [])) == 0
  {
    if n > 0 {
      NoCountsAddUp(n - 1);
      assert Counts(n, [])[..n - 1] == Counts(n - 1, []);
    }
  }

  /** Every counted key lands in exactly one bucket: the buckets add up to the keys that name one. */
  lemma {:induction false} CountsAddUp(n: nat, keys: seq<Option<int>>)
    requires InRange(keys, n)
    ensures SumInt(Counts(n, keys)) == Passing(keys)
  {
    if keys == [] {
      NoCountsAddUp(n);
    } else {
      var p, k := keys[..|keys| - 1], keys[|keys| - 1];
      assert keys == p + [k];
      assert InRange(p, n);
      CountsAddUp(n, p);
      CountsSnoc(n, p, k);
      if k.Some? {
        SumIntUpdate(Counts(n, p), k.value, 1);
      }
    }
  }

  /** `Array(n).fill(0)` followed by `data[key]++` for every workout that has a key. */
  method Tally(n: nat, keys: seq<Option<int>>) returns (data: seq<int>)
    requires InRange(keys, n)
    ensures data == Counts(n, keys)
  {
    var a := new int[n](_ => 0);
    for i := 0 to |keys|
      invariant a[..] == Counts(n, keys[..i])
    {
      assert keys[..i + 1] == keys[..i] + [keys[i]];
      CountsSnoc(n, keys[..i], keys[i]);
      if keys[i].Some? {
        var k := keys[i].value;
        a[k] := a[k] + 1;
      }
    }
    assert keys[..|keys|] == keys;
    data := a[..];
  }

  /** The items whose key names bucket `b`. */
  function HasKey<T>(key: T -> Option<int>, b: int): T -> bool
  {
    x => key(x) == Some(b)
  }

  /** The items that have a key. */
  function Keyed<T>(key: T -> Option<int>): T -> bool
  {
    x => key(x).Some?
  }

  /** Bucket `b` holds the number of items whose key is `b`. */
  lemma {:induction false} CountOfFilter<T>(s: seq<T>, key: T -> Option<int>, b: int)
    ensures CountOf(Map(s, key), b) == |Filter(s, HasKey(key, b))|
  {
    if s != [] {
      var p, x := s[..|s| - 1], s[|s| - 1];
      assert s == p + [x];
      assert Map(s, key)[..|s| - 1] == Map(p, key);
      CountOfFilter(p, key, b);
      FilterSnoc(p, x, HasKey(key, b));
    }
  }

  /** The number of keyed keys is the number of items that have a key. */
  lemma {:induction false} PassingFilter<T>(s: seq<T>, key: T -> Option<int>)
    ensures Passing(Map(s, key)) == |Filter(s, Keyed(key))|
  {
    if s != [] {
      var p, x := s[..|s| - 1], s[|s| - 1];
      assert s == p + [x];
      assert Map(s, key)[..|s| - 1] == Map(p, key);
      PassingFilter(p, key);
      FilterSnoc(p, x, Keyed(key));
    }
  }

  // ---------------------------------------------------------------------------
  // The views' date tests

  /** `startOfWeek`: `now` moved back to Sunday, with its time of day kept. */
  function WeekStart(now: Stamp): int
  {
    now.ms - now.weekday * MsPerDay
  }

  function InWeek(now: Stamp): Stamp -> bool
  {
    (w: Stamp) => WeekStart(now) <= w.ms <= now.ms
  }

  function WeekKey(now: Stamp): Stamp -> Option<int>
  {
    (w: Stamp) => if InWeek(now)(w) then Some(w.weekday) else None
  }

  function InMonth(now: Stamp): Stamp -> bool
  {
    (w: Stamp) => w.month == now.month && w.year == now.year
  }

  function MonthKey(now: Stamp): Stamp -> Option<int>
  {
    (w: Stamp) => if InMonth(now)(w) then Some(w.date - 1) else None
  }

  function InYear(now: Stamp): Stamp -> bool
  {
    (w: Stamp) => w.year == now.year
  }

  function YearKey(now: Stamp): Stamp -> Option<int>
  {
    (w: Stamp) => if InYear(now)(w) then Some(w.month) else None
  }

  /** Every valid date falls into a bucket of each of the three calendar views. */
  lemma KeysInRange(stamps: seq<Stamp>, now: Stamp, daysInMonth: nat)
    requires forall i :: 0 <= i < |stamps| ==> ValidStamp(stamps[i])
    requires forall i :: 0 <= i < |stamps| && InMonth(now)(stamps[i]) ==> stamps[i].date <= daysInMonth
    ensures InRange(Map(stamps, WeekKey(now)), 7)
    ensures InRange(Map(stamps, MonthKey(now)), daysInMonth)
    ensures InRange(Map(stamps, YearKey(now)), 12)
  {
  }

  /**
   * In a calendar view the buckets add up to the number of workouts passing
   * the view's date test, and bucket `b` counts the passing workouts whose
   * index is `b`.
   */
  lemma ViewCounts(stamps: seq<Stamp>, n: nat, key: Stamp -> Option<int>, test: Stamp -> bool, b: int)
    requires InRange(Map(stamps, key), n)
    requires forall i :: 0 <= i < |stamps| ==> key(stamps[i]).Some? == test(stamps[i])
    ensures SumInt(Counts(n, Map(stamps, key))) == |Filter(stamps, test)|
    ensures 0 <= b < n ==> Counts(n, Map(stamps, key))[b] == |Filter(stamps, HasKey(key, b))|
  {
    CountsAddUp(n, Map(stamps, key));
    PassingFilter(stamps, key);
    FilterCongruent(stamps, Keyed(key), test);
    CountOfFilter(stamps, key, b);
  }

  // ---------------------------------------------------------------------------
  // The "all" view: years sorted as text

  function YearOf(w: Stamp): int
  {
    w.year
  }

  /** The group-by reduce only counts; it sums nothing. */
  function NoValue(w: Stamp): real
  {
    0.0
  }

  /** Years in the order `sort()` puts their printed forms. */
  predicate SortedAsText(years: seq<int>)
  {
    forall i, j :: 0 <= i < j < |years| ==> TextLe(IntToString(years[i]), IntToString(years[j]))
  }

  function InsertYear(y: int, years: seq<int>): (r: seq<int>)
    ensures |r| == |years| + 1
    ensures multiset(r) == multiset(years) + multiset{y}
  {
    if years == [] || TextLe(IntToString(y), IntToString(years[0])) then [y] + years
    else
      assert years == [years[0]] + years[1..];
      [years[0]] + InsertYear(y, years[1..])
  }

  /** `Object.keys(workoutsByYear).sort()`, on the years before they are printed. */
  function SortYears(years: seq<int>): (r: seq<int>)
    ensures |r| == |years|
    ensures multiset(r) == multiset(years)
  {
    if years == [] then []
    else
      assert years == [years[0]] + years[1..];
      InsertYear(years[0], SortYears(years[1..]))
  }

  lemma {:induction false} InsertYearSorted(y: int, years: seq<int>)
    requires SortedAsText(years)
    ensures SortedAsText(InsertYear(y, years))
  {
    if years != [] && !TextLe(IntToString(y), IntToString(years[0])) {
      var first, rest := years[0], years[1..];
      TextLeTotal(IntToString(y), IntToString(first));
      assert SortedAsText(rest) by {
        forall i, j | 0 <= i < j < |rest| ensures TextLe(IntToString(rest[i]), IntToString(rest[j])) {
          assert rest[i] == years[i + 1] && rest[j] == years[j + 1];
        }
      }
      InsertYearSorted(y, rest);
      var r := InsertYear(y, rest);
      forall j | 0 <= j < |r| ensures TextLe(IntToString(first), IntToString(r[j])) {
        assert r[j] in multiset(r);
        if r[j] != y {
          assert r[j] in multiset(rest);
          var k :| 0 <= k < |rest| && rest[k] == r[j];
          assert years[k + 1] == r[j];
        }
      }
      LeadingBelowSorted(first, r);
    } else {
      forall j | 0 <= j < |years| ensures TextLe(IntToString(y), IntToString(years[j])) {
        if j > 0 {
          TextLeTransitive(IntToString(y), IntToString(years[0]), IntToString(years[j]));
        }
      }
      LeadingBelowSorted(y, years);
    }
  }

  /** A smallest first element in front of a sorted list keeps it sorted. */
  lemma LeadingBelowSorted(first: int, r: seq<int>)
    requires SortedAsText(r)
    requires forall j :: 0 <= j < |r| ==> TextLe(IntToString(first), IntToString(r[j]))
    ensures SortedAsText([first] + r)
  {
    var t := [first] + r;
    forall i, j | 0 <= i < j < |t| ensures TextLe(IntToString(t[i]), IntToString(t[j])) {
      assert t[j] == r[j - 1];
      if i > 0 {
        assert t[i] == r[i - 1];
      }
    }
  }

  lemma {:induction false} SortYearsSorted(years: seq<int>)
    ensures SortedAsText(SortYears(years))
  {
    if years != [] {
      SortYearsSorted(years[1..]);
      InsertYearSorted(years[0], SortYears(years[1..]));
    }
  }

  /** Sorting a duplicate-free list of years keeps it duplicate-free. */
  lemma {:induction false} SortYearsNoDup(years: seq<int>)
    requires NoDup(years)
    ensures NoDup(SortYears(years))
  {
    if years != [] {
      var t := SortYears(years[1..]);
      assert NoDup(years[1..]);
      SortYearsNoDup(years[1..]);
      assert years[0] !in multiset(years[1..]);
      InsertYearNoDup(years[0], t);
    }
  }

  lemma {:induction false} InsertYearNoDup(y: int, years: seq<int>)
    requires NoDup(years) && y !in multiset(years)
    ensures NoDup(InsertYear(y, years))
  {
    if years != [] && !TextLe(IntToString(y), IntToString(years[0])) {
      assert NoDup(years[1..]);
      assert multiset(years) == multiset{years[0]} + multiset(years[1..]) by {
        assert years == [years[0]] + years[1..];
      }
      InsertYearNoDup(y, years[1..]);
      var r := InsertYear(y, years[1..]);
      assert years[0] !in multiset(r) by {
        assert years[0] !in years[1..];
      }
      forall j | 0 <= j < |r| ensures r[j] != years[0] {
        assert r[j] in multiset(r);
      }
    }
  }

  /** A year's count in the accumulator, 0 for a year it does not hold. */
  function CountIn(totals: map<int, Totals>): int -> int
  {
    y => if y in totals then totals[y].count else 0
  }

  lemma {:induction false} SumInsertYear(y: int, years: seq<int>, f: int -> int)
    ensures SumInt(Map(InsertYear(y, years), f)) == f(y) + SumInt(Map(years, f))
  {
    if years == [] || TextLe(IntToString(y), IntToString(years[0])) {
      MapCons(y, years, f);
      SumIntCons(f(y), Map(years, f));
    } else {
      var r := InsertYear(y, years[1..]);
      SumInsertYear(y, years[1..], f);
      MapCons(years[0], r, f);
      SumIntCons(f(years[0]), Map(r, f));
      assert years == [years[0]] + years[1..];
      MapCons(years[0], years[1..], f);
      SumIntCons(f(years[0]), Map(years[1..], f));
    }
  }

  lemma {:induction false} SumSortYears(years: seq<int>, f: int -> int)
    ensures SumInt(Map(SortYears(years), f)) == SumInt(Map(years, f))
  {
    if years != [] {
      SumSortYears(years[1..], f);
      SumInsertYear(years[0], SortYears(years[1..]), f);
      assert years == [years[0]] + years[1..];
      MapCons(years[0], years[1..], f);
      SumIntCons(f(years[0]), Map(years[1..], f));
    }
  }

  lemma {:induction false} CountOverIsSum(days: seq<int>, totals: map<int, Totals>)
    requires forall i :: 0 <= i < |days| ==> days[i] in totals
    ensures CountOver(days, totals) == SumInt(Map(days, CountIn(totals)))
  {
    if days != [] {
      assert Map(days, CountIn(totals))[..|days| - 1] == Map(days[..|days| - 1], CountIn(totals));
      CountOverIsSum(days[..|days| - 1], totals);
    }
  }

  /** The chart's labels and bar values. */
  datatype Chart = Chart(labels: seq<string>, data: seq<int>)

  /** The "all" view: one bar per year that has a workout, years in text order. */
  function YearsView(stamps: seq<Stamp>): Chart
  {
    var g := GroupBy(stamps, YearOf, NoValue, NoValue);
    var years := SortYears(g.days);
    Chart(Map(years, IntToString), Map(years, CountIn(g.totals)))
  }

  /** The "all" view's labels are distinct and in ascending text order, one per bar. */
  lemma YearsViewOrdered(stamps: seq<Stamp>)
    ensures var c := YearsView(stamps);
      |c.labels| == |c.data| && SortedAsText(SortYears(GroupBy(stamps, YearOf, NoValue, NoValue).days))
    ensures var c := YearsView(stamps);
      forall i, j :: 0 <= i < j < |c.labels| ==> TextLe(c.labels[i], c.labels[j]) && c.labels[i] != c.labels[j]
  {
    var g := GroupBy(stamps, YearOf, NoValue, NoValue);
    var years := SortYears(g.days);
    var labels := Map(years, IntToString);
    assert YearsView(stamps) == Chart(labels, Map(years, CountIn(g.totals)));
    SortYearsSorted(g.days);
    SortYearsNoDup(g.days);
    forall i, j | 0 <= i < j < |labels| ensures TextLe(labels[i], labels[j]) && labels[i] != labels[j] {
      if labels[i] == labels[j] {
        IntToStringInjective(years[i], years[j]);
      }
    }
  }

  /** A year has a label exactly when some workout was done in it. */
  lemma YearsViewLabels(stamps: seq<Stamp>, y: int)
    ensures IntToString(y) in YearsView(stamps).labels <==> exists i :: 0 <= i < |stamps| && stamps[i].year == y
  {
    var g := GroupBy(stamps, YearOf, NoValue, NoValue);
    var years := SortYears(g.days);
    var labels := Map(years, IntToString);
    assert YearsView(stamps).labels == labels;
    GroupByKeys(stamps, YearOf, NoValue, NoValue, y);
    if IntToString(y) in labels {
      var i :| 0 <= i < |labels| && labels[i] == IntToString(y);
      IntToStringInjective(years[i], y);
      assert years[i] in multiset(g.days);
    }
  }

  /** The bar under a year's label is that year's number of workouts. */
  lemma YearsViewCounts(stamps: seq<Stamp>, y: int)
    ensures var c := YearsView(stamps);
      forall i :: 0 <= i < |c.labels| && c.labels[i] == IntToString(y) ==> c.data[i] == |OnDay(stamps, YearOf, y)|
  {
    var g := GroupBy(stamps, YearOf, NoValue, NoValue);
    var years := SortYears(g.days);
    var labels, data := Map(years, IntToString), Map(years, CountIn(g.totals));
    assert YearsView(stamps) == Chart(labels, data);
    forall i | 0 <= i < |labels| && labels[i] == IntToString(y) ensures data[i] == |OnDay(stamps, YearOf, y)| {
      IntToStringInjective(years[i], y);
      assert years[i] in multiset(g.days);
      GroupByTotals(stamps, YearOf, NoValue, NoValue, y);
    }
  }

  /** The bars add up to the number of workouts. */
  lemma YearsViewTotal(stamps: seq<Stamp>)
    ensures SumInt(YearsView(stamps).data) == |stamps|
  {
    var g := GroupBy(stamps, YearOf, NoValue, NoValue);
    assert YearsView(stamps).data == Map(SortYears(g.days), CountIn(g.totals));
    GroupByCountsAddUp(stamps, YearOf, NoValue, NoValue);
    CountOverIsSum(g.days, g.totals);
    SumSortYears(g.days, CountIn(g.totals));
  }

  /**
   * The "all" view has exactly one bar per year in which a workout was done,
   * the labels in ascending text order, each bar that year's number of
   * workouts, and the bars adding up to all workouts.
   */
  lemma YearsViewSpec(stamps: seq<Stamp>, y: int)
    ensures var c := YearsView(stamps);
      |c.labels| == |c.data| && SortedAsText(SortYears(GroupBy(stamps, YearOf, NoValue, NoValue).days))
    ensures var c := YearsView(stamps);
      forall i, j :: 0 <= i < j < |c.labels| ==> TextLe(c.labels[i], c.labels[j]) && c.labels[i] != c.labels[j]
    ensures IntToString(y) in YearsView(stamps).labels <==> exists i :: 0 <= i < |stamps| && stamps[i].year == y
    ensures var c := YearsView(stamps);
      forall i :: 0 <= i < |c.labels| && c.labels[i] == IntToString(y) ==> c.data[i] == |OnDay(stamps, YearOf, y)|
    ensures SumInt(YearsView(stamps).data) == |stamps|
  {
    YearsViewOrdered(stamps);
    YearsViewLabels(stamps, y);
    YearsViewCounts(stamps, y);
    YearsViewTotal(stamps);
  }

  // ---------------------------------------------------------------------------
  // Labels and the chart

  /** `substring(0, 3)`. */
  function Abbreviation(name: string): (r: string)
    ensures r <= name && |r| == if |name| < 3 then |name| else 3
  {
    if |name| < 3 then name else name[..3]
  }

  /** The day-of-month labels, every fifth one kept and the others blanked. */
  function MonthLabels(daysInMonth: nat): (r: seq<string>)
    ensures |r| == daysInMonth
    ensures forall i :: 0 <= i < daysInMonth && i % 5 == 0 ==> r[i] == NatToString(i + 1)
    ensures forall i :: 0 <= i < daysInMonth && i % 5 != 0 ==> r[i] == ""
  {
    seq(daysInMonth, i requires 0 <= i < daysInMonth => if i % 5 == 0 then NatToString(i + 1) else "")
  }

  /**
   * `chartData` for a timeframe. The day and month names come from the
   * translations and `daysInMonth` from the calendar utility; both are inputs.
   */
  method ChartData(timeframe: string, stamps: seq<Stamp>, now: Stamp,
                   weekDays: seq<string>, months: seq<string>, daysInMonth: nat)
    returns (chart: Chart)
    requires forall i :: 0 <= i < |stamps| ==> ValidStamp(stamps[i])
    requires forall i :: 0 <= i < |stamps| && InMonth(now)(stamps[i]) ==> stamps[i].date <= daysInMonth
    ensures timeframe == "week" ==>
      chart == Chart(Map(weekDays, Abbreviation), Counts(7, Map(stamps, WeekKey(now))))
    ensures timeframe == "month" ==>
      chart == Chart(MonthLabels(daysInMonth), Counts(daysInMonth, Map(stamps, MonthKey(now))))
    ensures timeframe == "year" ==>
      chart == Chart(Map(months, Abbreviation), Counts(12, Map(stamps, YearKey(now))))
    ensures timeframe == "all" ==> chart == YearsView(stamps)
    ensures timeframe !in {"week", "month", "year", "all"} ==> chart == Chart([], [])
  {
    KeysInRange(stamps, now, daysInMonth);
    if timeframe == "week" {
      var data := Tally(7, Map(stamps, WeekKey(now)));
      chart := Chart(Map(weekDays, Abbreviation), data);
    } else if timeframe == "month" {
      var data := Tally(daysInMonth, Map(stamps, MonthKey(now)));
      chart := Chart(MonthLabels(daysInMonth), data);
    } else if timeframe == "year" {
      var data := Tally(12, Map(stamps, YearKey(now)));
      chart := Chart(Map(months, Abbreviation), data);
    } else if timeframe == "all" {
      var days, totals := GroupByDay(stamps, YearOf, NoValue, NoValue);
      var years := SortYears(days);
      chart := Chart(Map(years, IntToString), Map(years, CountIn(totals)));
    } else {
      chart := Chart([], []);
    }
  }
}
