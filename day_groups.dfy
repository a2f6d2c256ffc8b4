/**
 * Grouping wellness samples by calendar day, as the `reduce` calls of the mood,
 * stress and hydration charts do: an accumulator object keyed by the day,
 * created with zero sums on the first sample of a day and then increased in
 * place. Keys keep the order in which they were first created, which is the
 * order `Object.entries` reports them in.
 */
module DayGroups {
  import opened Common
  import opened Seqs

  /** The per-day accumulator: two running sums and the number of samples. */
  datatype Totals = Totals(sumA: real, sumB: real, count: nat)

  /** The accumulator object: its keys in creation order and its entries. */
  datatype Groups = Groups(days: seq<int>, totals: map<int, Totals>)

  ghost predicate WellFormed(g: Groups)
  {
    && NoDup(g.days)
    && (forall i :: 0 <= i < |g.days| ==> g.days[i] in g.totals && g.totals[g.days[i]].count >= 1)
    && (forall d :: d in g.totals ==> d in g.days)
  }

  /** One step of the reduce: add a sample of day `d` with values `a` and `b`. */
  function Add(g: Groups, d: int, a: real, b: real): Groups
  {
    if d in g.totals then
      var t := g.totals[d];
      Groups(g.days, g.totals[d := Totals(t.sumA + a, t.sumB + b, t.count + 1)])
    else
      Groups(g.days + [d], g.totals[d := Totals(0.0 + a, 0.0 + b, 1)])
  }

  /** The whole reduce over `s`, from the left. */
  function GroupBy<T>(s: seq<T>, day: T -> int, a: T -> real, b: T -> real): (g: Groups)
    ensures WellFormed(g)
  {
    if s == [] then Groups([], map[])
    else
      var x := s[|s| - 1];
      var g := GroupBy(s[..|s| - 1], day, a, b);
      var g' := Add(g, day(x), a(x), b(x));
      assert day(x) !in g.totals ==> forall i :: 0 <= i < |g.days| ==> g.days[i] != day(x);
      g'
  }

  /** The reduce as the components run it: a loop that updates the accumulator in place. */
  method GroupByDay<T>(s: seq<T>, day: T -> int, a: T -> real, b: T -> real)
    returns (days: seq<int>, totals: map<int, Totals>)
    ensures Groups(days, totals) == GroupBy(s, day, a, b)
  {
    days, totals := [], map[];
    for i := 0 to |s|
      invariant Groups(days, totals) == GroupBy(s[..i], day, a, b)
    {
      assert s[..i + 1] == s[..i] + [s[i]];
      GroupBySnoc(s[..i], s[i], day, a, b);
      ghost var before := Groups(days, totals);
      var d := day(s[i]);
      if d !in totals {
        totals := totals[d := Totals(0.0, 0.0, 0)];
        days := days + [d];
      }
      var t := totals[d];
      totals := totals[d := Totals(t.sumA + a(s[i]), t.sumB + b(s[i]), t.count + 1)];
      if d in before.totals {
        assert totals == before.totals[d := Totals(t.sumA + a(s[i]), t.sumB + b(s[i]), t.count + 1)];
      } else {
        assert totals == before.totals[d := Totals(0.0 + a(s[i]), 0.0 + b(s[i]), 1)];
      }
    }
    assert s[..|s|] == s;
  }

  function IsDay<T>(day: T -> int, d: int): T -> bool
  {
    x => day(x) == d
  }

  /** The samples of day `d`. */
  function OnDay<T>(s: seq<T>, day: T -> int, d: int): seq<T>
  {
    Filter(s, IsDay(day, d))
  }

  /** A day has an entry exactly when some sample falls on it. */
  lemma {:induction false} GroupByKeys<T>(s: seq<T>, day: T -> int, a: T -> real, b: T -> real, d: int)
    ensures d in GroupBy(s, day, a, b).totals <==> exists i :: 0 <= i < |s| && day(s[i]) == d
  {
    if s != [] {
      var s' := s[..|s| - 1];
      GroupByKeys(s', day, a, b, d);
      if day(s[|s| - 1]) != d && exists i :: 0 <= i < |s| && day(s[i]) == d {
        var i :| 0 <= i < |s| && day(s[i]) == d;
        assert s'[i] == s[i];
      }
    }
  }

  lemma GroupBySnoc<T>(s: seq<T>, x: T, day: T -> int, a: T -> real, b: T -> real)
    ensures GroupBy(s + [x], day, a, b) == Add(GroupBy(s, day, a, b), day(x), a(x), b(x))
  {
    assert (s + [x])[..|s|] == s;
  }

  /**
   * One reduce step keeps the entry of day `d` equal to (sums, count) of the
   * day's samples: the step adds the new sample exactly when it falls on `d`,
   * and so do the sums and the count (from `sa, sb, n` to `SA, SB, N`).
   */
  lemma AddKeepsTotals(g: Groups, G: Groups, e: int, va: real, vb: real, d: int,
                       sa: real, sb: real, n: nat, SA: real, SB: real, N: nat)
    requires G == Add(g, e, va, vb)
    requires d in g.totals ==> g.totals[d] == Totals(sa, sb, n)
    requires d !in g.totals ==> sa == 0.0 && sb == 0.0 && n == 0
    requires e == d ==> SA == sa + va && SB == sb + vb && N == n + 1
    requires e != d ==> SA == sa && SB == sb && N == n
    ensures d in G.totals ==> G.totals[d] == Totals(SA, SB, N)
    ensures d !in G.totals ==> N == 0
  {
    if d !in g.totals && e == d {
      assert G.totals[d] == Totals(0.0 + va, 0.0 + vb, 1);
    }
  }

  /** A day's entry holds the sums of the day's values and the number of the day's samples. */
  lemma {:induction false} GroupByTotals<T>(s: seq<T>, day: T -> int, a: T -> real, b: T -> real, d: int)
    ensures d in GroupBy(s, day, a, b).totals ==>
      GroupBy(s, day, a, b).totals[d] ==
        Totals(SumBy(OnDay(s, day, d), a), SumBy(OnDay(s, day, d), b), |OnDay(s, day, d)|)
    ensures d !in GroupBy(s, day, a, b).totals ==> OnDay(s, day, d) == []
  {
    if s != [] {
      var s' := s[..|s| - 1];
      var x := s[|s| - 1];
      assert s == s' + [x];
      GroupBySnoc(s', x, day, a, b);
      GroupByTotals(s', day, a, b, d);
      var f := OnDay(s', day, d);
      var F := OnDay(s, day, d);
      FilterSnoc(s', x, IsDay(day, d));
      if day(x) == d {
        assert F == f + [x];
        SumBySnoc(f, x, a);
        SumBySnoc(f, x, b);
      } else {
        assert F == f;
      }
      AddKeepsTotals(GroupBy(s', day, a, b), GroupBy(s, day, a, b), day(x), a(x), b(x), d,
                     SumBy(f, a), SumBy(f, b), |f|, SumBy(F, a), SumBy(F, b), |F|);
    }
  }

  /** The sum of the counts of the days in `days`. */
  function CountOver(days: seq<int>, totals: map<int, Totals>): int
    requires forall i :: 0 <= i < |days| ==> days[i] in totals
  {
    if days == [] then 0 else CountOver(days[..|days| - 1], totals) + totals[days[|days| - 1]].count
  }

  lemma {:induction false} CountOverUpdate(days: seq<int>, totals: map<int, Totals>, d: int, t: Totals)
    requires forall i :: 0 <= i < |days| ==> days[i] in totals
    requires NoDup(days)
    requires d in totals
    ensures CountOver(days, totals[d := t]) ==
      CountOver(days, totals) + (if d in days then t.count - totals[d].count else 0)
  {
    if days != [] {
      var last := days[|days| - 1];
      assert NoDup(days[..|days| - 1]);
      CountOverUpdate(days[..|days| - 1], totals, d, t);
      assert d in days <==> d in days[..|days| - 1] || d == last;
      assert last == d ==> d !in days[..|days| - 1];
    }
  }

  lemma {:induction false} CountOverExtend(days: seq<int>, totals: map<int, Totals>, d: int, t: Totals)
    requires forall i :: 0 <= i < |days| ==> days[i] in totals
    requires d !in days
    ensures CountOver(days, totals[d := t]) == CountOver(days, totals)
  {
    if days != [] {
      CountOverExtend(days[..|days| - 1], totals, d, t);
    }
  }

  /** One reduce step adds exactly one to the sum of the day counts. */
  lemma AddCountOver(g: Groups, e: int, va: real, vb: real)
    requires WellFormed(g)
    ensures WellFormed(Add(g, e, va, vb))
    ensures CountOver(Add(g, e, va, vb).days, Add(g, e, va, vb).totals) == CountOver(g.days, g.totals) + 1
  {
    var G := Add(g, e, va, vb);
    if e in g.totals {
      var t := g.totals[e];
      assert e in g.days;
      CountOverUpdate(g.days, g.totals, e, Totals(t.sumA + va, t.sumB + vb, t.count + 1));
      assert G == Groups(g.days, g.totals[e := Totals(t.sumA + va, t.sumB + vb, t.count + 1)]);
    } else {
      var t := Totals(0.0 + va, 0.0 + vb, 1);
      assert forall i :: 0 <= i < |g.days| ==> g.days[i] != e;
      CountOverExtend(g.days, g.totals, e, t);
      assert G.days[..|G.days| - 1] == g.days;
      assert CountOver(G.days, G.totals) == CountOver(g.days, G.totals) + G.totals[e].count;
    }
  }

  /** Every sample is counted once: the day counts add up to the number of samples. */
  lemma {:induction false} GroupByCountsAddUp<T>(s: seq<T>, day: T -> int, a: T -> real, b: T -> real)
    ensures CountOver(GroupBy(s, day, a, b).days, GroupBy(s, day, a, b).totals) == |s|
  {
    if s != [] {
      var s' := s[..|s| - 1];
      var x := s[|s| - 1];
      assert s == s' + [x];
      GroupBySnoc(s', x, day, a, b);
      GroupByCountsAddUp(s', day, a, b);
      AddCountOver(GroupBy(s', day, a, b), day(x), a(x), b(x));
    }
  }

  predicate StrictlyIncreasing(s: seq<int>)
  {
    forall i, j :: 0 <= i < j < |s| ==> s[i] < s[j]
  }

  /** Grouping samples sorted by day yields one key per day, in ascending order. */
  lemma {:induction false} GroupBySortedAscending<T>(s: seq<T>, day: T -> int, a: T -> real, b: T -> real)
    requires forall i, j :: 0 <= i < j < |s| ==> day(s[i]) <= day(s[j])
    ensures StrictlyIncreasing(GroupBy(s, day, a, b).days)
  {
    if s != [] {
      var s' := s[..|s| - 1];
      var x := s[|s| - 1];
      var g := GroupBy(s', day, a, b);
      GroupBySortedAscending(s', day, a, b);
      if day(x) !in g.totals {
        forall k | 0 <= k < |g.days| ensures g.days[k] < day(x) {
          GroupByKeys(s', day, a, b, g.days[k]);
          var i :| 0 <= i < |s'| && day(s'[i]) == g.days[k];
          assert day(s[i]) <= day(s[|s| - 1]);
        }
      }
    }
  }

  /** The per-day averages `sum / count`, in the order of `days`. */
  function Averages(days: seq<int>, totals: map<int, Totals>, sum: Totals -> real): (r: seq<real>)
    requires forall i :: 0 <= i < |days| ==> days[i] in totals && totals[days[i]].count >= 1
    ensures |r| == |days|
    ensures forall i :: 0 <= i < |days| ==> r[i] == sum(totals[days[i]]) / totals[days[i]].count as real
  {
    if days == [] then []
    else
      var d := days[|days| - 1];
      Averages(days[..|days| - 1], totals, sum) + [sum(totals[d]) / totals[d].count as real]
  }

  function SumA(t: Totals): real { t.sumA }
  function SumB(t: Totals): real { t.sumB }

  /** The first running sum of a day, or 0 for a day without samples (`acc[day]?.total || 0`). */
  function SumAOf(g: Groups): int -> real
  {
    d => if d in g.totals then g.totals[d].sumA else 0.0
  }

  function InDays<T>(day: T -> int, days: seq<int>): T -> bool
  {
    x => day(x) in days
  }

  /**
   * Looking up a list of distinct days and adding the results gives the sum over
   * exactly the samples that fall on one of those days.
   */
  lemma {:induction false} GroupByWindowSum<T>(s: seq<T>, day: T -> int, a: T -> real, b: T -> real, window: seq<int>)
    requires NoDup(window)
    ensures SumBy(window, SumAOf(GroupBy(s, day, a, b))) == SumBy(Filter(s, InDays(day, window)), a)
  {
    var g := GroupBy(s, day, a, b);
    if window != [] {
      var w' := window[..|window| - 1];
      var e := window[|window| - 1];
      assert window == w' + [e];
      assert NoDup(w');
      GroupByWindowSum(s, day, a, b, w');
      SumBySnoc(w', e, SumAOf(g));
      GroupByTotals(s, day, a, b, e);
      SumByFilterSplit(s, InDays(day, w'), IsDay(day, e), a);
      FilterCongruent(s, x => InDays(day, w')(x) || IsDay(day, e)(x), InDays(day, window));
    }
  }

  /** A day's average of the first values lies within any bounds of that day's first values. */
  lemma GroupByAverageBounds<T>(s: seq<T>, day: T -> int, a: T -> real, b: T -> real, d: int, lo: real, hi: real)
    requires d in GroupBy(s, day, a, b).totals
    requires forall k :: 0 <= k < |OnDay(s, day, d)| ==> lo <= a(OnDay(s, day, d)[k]) <= hi
    ensures lo <= GroupBy(s, day, a, b).totals[d].sumA / GroupBy(s, day, a, b).totals[d].count as real <= hi
  {
    GroupByTotals(s, day, a, b, d);
    SumByAverage(OnDay(s, day, d), a, lo, hi);
  }
}
