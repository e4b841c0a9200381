/** The series of analysis/backtesting.py: a `Backtester` builds the equity
    curve and the return series of a portfolio from either one, cuts them to a
    window of dates, aligns them with a benchmark, and reports the total
    returns. Dates are whole days; a series is a sequence of dated points with
    one point per date. The quantstats metrics are not computed: the summary
    takes their values as given. */
module Backtesting {
  import opened Common
  import Sorting

  /** One entry of a series: a day and a number. */
  datatype Point = Point(date: int, value: real)

  /** One entry of a given series, whose number may be missing (NaN). */
  datatype Observation = Observation(date: int, value: Option<real>)

  function Dates(s: seq<Point>): set<int> {
    set p | p in s :: p.date
  }

  /** A series index holds each date once. */
  predicate DistinctDates(s: seq<Point>) {
    forall i, j :: 0 <= i < j < |s| ==> s[i].date != s[j].date
  }

  predicate DistinctObservations(s: seq<Observation>) {
    forall i, j :: 0 <= i < j < |s| ==> s[i].date != s[j].date
  }

  predicate Chronological(s: seq<Point>) {
    forall i, j :: 0 <= i < j < |s| ==> s[i].date < s[j].date
  }

  // Building the series

  /** `fillna(0)`. */
  function FillNa(s: seq<Observation>): (r: seq<Point>)
    ensures |r| == |s|
    ensures forall i :: 0 <= i < |s| ==> r[i].date == s[i].date
    ensures forall i :: 0 <= i < |s| ==> r[i].value == (if s[i].value.Some? then s[i].value.value else 0.0)
  {
    seq(|s|, i requires 0 <= i < |s| => Point(s[i].date, if s[i].value.Some? then s[i].value.value else 0.0))
  }

  function ByDate(p: Point): Sorting.Key {
    Sorting.Key(p.date as real, 0.0, 0.0)
  }

  /** `sort_index()`: the same points, oldest first. */
  function SortIndex(s: seq<Point>): (r: seq<Point>)
    requires DistinctDates(s)
    ensures multiset(r) == multiset(s)
    ensures Dates(r) == Dates(s)
    ensures Chronological(r)
  {
    var r := Sorting.SortBy(s, ByDate);
    assert forall p :: p in r <==> p in multiset(s);
    assert NoDuplicates(s) by {
      forall i, j | 0 <= i < j < |s| ensures s[i] != s[j] {
        assert s[i].date != s[j].date;
      }
    }
    PermutationNoDuplicates(s, r);
    forall i, j | 0 <= i < j < |r| ensures r[i].date < r[j].date {
      assert Sorting.KeyLe(ByDate(r[i]), ByDate(r[j]));
      assert r[i] in multiset(s) && r[j] in multiset(s);
      var a :| 0 <= a < |s| && s[a] == r[i];
      var b :| 0 <= b < |s| && s[b] == r[j];
      assert a != b;
    }
    r
  }

  /** The relative change from one value to the next. */
  function Change(previous: real, current: real): real
    requires previous != 0.0
  {
    current / previous - 1.0
  }

  /** `pct_change().fillna(0)`: the change from the previous point, 0 for the
      first. A zero base (which pandas turns into an infinity) is excluded. */
  function PctChange(v: seq<Point>): (r: seq<Point>)
    requires forall i :: 0 <= i < |v| - 1 ==> v[i].value != 0.0
    ensures |r| == |v|
    ensures forall i :: 0 <= i < |v| ==> r[i].date == v[i].date
    ensures forall i :: 0 < i < |v| ==> r[i].value == Change(v[i - 1].value, v[i].value)
    ensures |v| > 0 ==> r[0].value == 0.0
  {
    seq(|v|, i requires 0 <= i < |v| => ChangeAt(v, i))
  }

  function ChangeAt(v: seq<Point>, i: nat): Point
    requires i < |v| && (i > 0 ==> v[i - 1].value != 0.0)
  {
    Point(v[i].date, if i == 0 then 0.0 else Change(v[i - 1].value, v[i].value))
  }

  /** A value after one period with the given return. */
  function Grown(x: real, ret: real): real {
    x * (1.0 + ret)
  }

  /** `(1 + r).prod()`. */
  function Growth(r: seq<Point>): real {
    if r == [] then 1.0 else Grown(Growth(r[..|r| - 1]), r[|r| - 1].value)
  }

  /** The capital grown by the given returns. */
  function CurveValue(capital: real, r: seq<Point>): real {
    capital * Growth(r)
  }

  /** `(1 + r).cumprod() * capital`. */
  function Compounded(r: seq<Point>, capital: real): (v: seq<Point>)
    ensures |v| == |r|
    ensures forall i :: 0 <= i < |r| ==> v[i] == Point(r[i].date, CurveValue(capital, r[..i + 1]))
  {
    seq(|r|, i requires 0 <= i < |r| => Point(r[i].date, CurveValue(capital, r[..i + 1])))
  }

  lemma {:induction false} GrowthAppend(a: seq<Point>, b: seq<Point>)
    ensures Growth(a + b) == Growth(a) * Growth(b)
    decreases |b|
  {
    if b == [] {
      assert a + b == a;
    } else {
      var n := |b| - 1;
      assert (a + b)[..|a + b| - 1] == a + b[..n];
      GrowthAppend(a, b[..n]);
    }
  }

  lemma GrowthSnoc(r: seq<Point>, i: nat)
    requires i < |r|
    ensures Growth(r[..i + 1]) == Grown(Growth(r[..i]), r[i].value)
  {
    assert r[..i + 1][..i] == r[..i];
  }

  /** Growing a curve value by one more return. */
  lemma CurveValueSnoc(capital: real, r: seq<Point>, i: nat)
    requires i < |r|
    ensures CurveValue(capital, r[..i + 1]) == Grown(CurveValue(capital, r[..i]), r[i].value)
  {
    GrowthSnoc(r, i);
    Associate(capital, Growth(r[..i]), 1.0 + r[i].value);
  }

  lemma Associate(a: real, b: real, c: real)
    ensures a * (b * c) == (a * b) * c
  {
  }

  /** A curve that was at the previous value and grows by the change from it
      to the current value arrives at the current value. */
  lemma Telescope(before: real, after: real, previous: real, current: real, change: real)
    requires previous != 0.0 && before == previous && change == Change(previous, current)
    requires after == Grown(before, change)
    ensures after == current
  {
  }

  /** The change from a value to that value grown is the return. */
  lemma ChangeOfGrown(x: real, ret: real)
    requires x != 0.0
    ensures Change(x, Grown(x, ret)) == ret
  {
  }

  /** Compounding the changes of a curve from its first value gives the curve
      back. */
  lemma CompoundingUndoesPctChange(v: seq<Point>)
    requires |v| > 0
    requires forall i :: 0 <= i < |v| ==> v[i].value != 0.0
    ensures Compounded(PctChange(v), v[0].value) == v
  {
    var r := PctChange(v);
    forall i | 0 <= i < |v| ensures CurveValue(v[0].value, r[..i + 1]) == v[i].value {
      GrowthOfChanges(v, i);
    }
  }

  lemma {:induction false} GrowthOfChanges(v: seq<Point>, i: nat)
    requires i < |v|
    requires forall k :: 0 <= k < |v| ==> v[k].value != 0.0
    ensures CurveValue(v[0].value, PctChange(v)[..i + 1]) == v[i].value
  {
    var r := PctChange(v);
    if i == 0 {
      GrowthSnoc(r, 0);
      assert r[..0] == [];
    } else {
      GrowthOfChanges(v, i - 1);
      assert PctChange(v)[..i - 1 + 1] == r[..i];
      CurveValueSnoc(v[0].value, r, i);
      Telescope(CurveValue(v[0].value, r[..i]), CurveValue(v[0].value, r[..i + 1]), v[i - 1].value, v[i].value, r[i].value);
    }
  }

  /** The changes of a compounded curve are the returns it was built from,
      except the first, which reads 0. */
  lemma PctChangeUndoesCompounding(r: seq<Point>, capital: real, i: nat)
    requires capital != 0.0
    requires forall k :: 0 <= k < |r| ==> 1.0 + r[k].value != 0.0
    requires 0 < i < |r|
    ensures GrowthNonZero(r, capital)
    ensures PctChange(Compounded(r, capital))[i].value == r[i].value
  {
    GrowthNonZeroHolds(r, capital);
    var v := Compounded(r, capital);
    assert r[..i - 1 + 1] == r[..i];
    assert v[i - 1].value == CurveValue(capital, r[..i]) != 0.0;
    CurveValueSnoc(capital, r, i);
    ChangeOfGrown(CurveValue(capital, r[..i]), r[i].value);
  }

  /** A compounded curve has no zero value when neither the capital nor any
      growth factor is zero. */
  predicate GrowthNonZero(r: seq<Point>, capital: real) {
    forall k :: 0 <= k < |r| ==> Compounded(r, capital)[k].value != 0.0
  }

  lemma GrowthNonZeroHolds(r: seq<Point>, capital: real)
    requires capital != 0.0
    requires forall k :: 0 <= k < |r| ==> 1.0 + r[k].value != 0.0
    ensures GrowthNonZero(r, capital)
  {
    forall k | 0 <= k < |r| ensures Compounded(r, capital)[k].value != 0.0 {
      GrowthOfNonZeroFactors(r[..k + 1]);
    }
  }

  lemma {:induction false} GrowthOfNonZeroFactors(r: seq<Point>)
    requires forall k :: 0 <= k < |r| ==> 1.0 + r[k].value != 0.0
    ensures Growth(r) != 0.0
  {
    if r != [] {
      GrowthOfNonZeroFactors(r[..|r| - 1]);
    }
  }

  /** The two series built from returns (lines 61-70): the equity curve with a
      point at the capital one day before the first date, and the returns
      with the first one overwritten by 0. */
  function CurveFromReturns(r: seq<Point>, capital: real): (v: seq<Point>)
    requires r != []
    ensures |v| == |r| + 1
    ensures v[0] == Point(r[0].date - 1, capital)
    ensures v[1..] == Compounded(r, capital)
  {
    [Point(r[0].date - 1, capital)] + Compounded(r, capital)
  }

  function ReturnsFromReturns(r: seq<Point>): (s: seq<Point>)
    requires r != []
    ensures |s| == |r| && s[1..] == r[1..]
    ensures s[0] == Point(r[0].date, 0.0)
  {
    r[0 := Point(r[0].date, 0.0)]
  }

  /** The curve built from returns ends at the capital grown by every return,
      the first included ... */
  lemma CurveFromReturnsEnd(r: seq<Point>, capital: real)
    requires r != []
    ensures CurveFromReturns(r, capital)[|r|].value == CurveValue(capital, r)
  {
    assert r[..|r|] == r;
  }

  /** ... though the stored returns read 0 for it. */
  lemma StoredReturnsSkipFirst(r: seq<Point>)
    requires r != []
    ensures Growth(ReturnsFromReturns(r)) == Growth(r[1..])
  {
    var s := ReturnsFromReturns(r);
    assert s == [s[0]] + s[1..];
    GrowthAppend([s[0]], s[1..]);
    assert [s[0]][..0] == [];
  }

  // Filtering and alignment

  predicate InWindow(date: int, start: int, end: Option<int>) {
    date >= start && (end.None? || date <= end.value)
  }

  /** `s[s.index >= start]`, then `s[s.index <= end]` when an end is given. */
  function Window(s: seq<Point>, start: int, end: Option<int>): (r: seq<Point>)
    ensures forall p :: p in r <==> p in s && InWindow(p.date, start, end)
    ensures Dates(r) == set d | d in Dates(s) && InWindow(d, start, end)
    ensures Chronological(s) ==> Chronological(r)
  {
    var dates := set d | d in Dates(s) && InWindow(d, start, end);
    WhereChronological(s, dates);
    Where(s, dates)
  }

  /** The points whose date is in the given set, in their order. */
  function Where(s: seq<Point>, dates: set<int>): (r: seq<Point>)
    ensures forall p :: p in r <==> p in s && p.date in dates
    ensures Dates(r) == Dates(s) * dates
  {
    if s == [] then []
    else
      var rest := Where(s[1..], dates);
      assert forall p :: p in s <==> p == s[0] || p in s[1..];
      if s[0].date in dates then [s[0]] + rest else rest
  }

  /** Filtering keeps a series oldest first. */
  lemma {:induction false} WhereChronological(s: seq<Point>, dates: set<int>)
    ensures Chronological(s) ==> Chronological(Where(s, dates))
  {
    if s != [] && Chronological(s) {
      var rest := Where(s[1..], dates);
      assert Chronological(s[1..]);
      WhereChronological(s[1..], dates);
      if s[0].date in dates {
        forall p | p in rest ensures s[0].date < p.date {
          var k :| 0 <= k < |s[1..]| && s[1..][k] == p;
          assert s[k + 1] == p;
        }
        ChronologicalCons(s[0], rest);
      }
    }
  }

  /** A point before every point of a chronological series can go first. */
  lemma ChronologicalCons(first: Point, rest: seq<Point>)
    requires Chronological(rest)
    requires forall p :: p in rest ==> first.date < p.date
    ensures Chronological([first] + rest)
  {
    var r := [first] + rest;
    forall i, j | 0 <= i < j < |r| ensures r[i].date < r[j].date {
      assert r[j] == rest[j - 1];
      if i > 0 {
        assert r[i] == rest[i - 1];
      } else {
        assert rest[j - 1] in rest;
      }
    }
  }

  lemma SameDates(a: seq<Point>, b: seq<Point>)
    requires |a| == |b| && forall i :: 0 <= i < |a| ==> a[i].date == b[i].date
    ensures Dates(a) == Dates(b)
  {
    forall d | d in Dates(a) ensures d in Dates(b) {
      var p :| p in a && p.date == d;
      var i :| 0 <= i < |a| && a[i] == p;
      assert b[i] in b;
    }
    forall d | d in Dates(b) ensures d in Dates(a) {
      var p :| p in b && p.date == d;
      var i :| 0 <= i < |b| && b[i] == p;
      assert a[i] in a;
    }
  }

  /** Every series after the window and the alignment, from the sorted and
      filled inputs: values and returns, then the benchmark restricted to the
      dates both returns have. */
  datatype Series = Series(values: seq<Point>, periodReturns: seq<Point>, benchmark: Option<seq<Point>>)

  /** Lines 53-70: from the values when they are given, otherwise from the
      returns. */
  function BuiltSeries(values: Option<seq<Point>>, periodReturns: Option<seq<Observation>>, capital: real): (s: Series)
    requires values.Some? || (periodReturns.Some? && periodReturns.value != [])
    requires values.Some? ==> DistinctDates(values.value) && forall p :: p in values.value ==> p.value != 0.0
    requires values.None? ==> DistinctObservations(periodReturns.value)
    ensures Chronological(s.values) && Chronological(s.periodReturns) && Dates(s.periodReturns) <= Dates(s.values)
    ensures s.benchmark.None?
  {
    if values.Some? then SeriesFromValues(values.value)
    else SeriesFromReturns(periodReturns.value, capital)
  }

  /** Lines 53-57: the values sorted by date, and their period changes. */
  function SeriesFromValues(values: seq<Point>): (s: Series)
    requires DistinctDates(values) && forall p :: p in values ==> p.value != 0.0
    ensures Chronological(s.values) && Chronological(s.periodReturns) && Dates(s.periodReturns) <= Dates(s.values)
    ensures s.benchmark.None?
  {
    var v := SortIndex(values);
    assert forall i :: 0 <= i < |v| ==> v[i] in multiset(values);
    var r := PctChange(v);
    SameDates(r, v);
    Series(v, r, None)
  }

  /** Lines 58-70: the returns sorted by date with gaps as 0, the curve they
      compound from the capital, and the stored returns. */
  function SeriesFromReturns(periodReturns: seq<Observation>, capital: real): (s: Series)
    requires periodReturns != [] && DistinctObservations(periodReturns)
    ensures Chronological(s.values) && Chronological(s.periodReturns) && Dates(s.periodReturns) <= Dates(s.values)
    ensures s.benchmark.None?
  {
    var filled := FillNa(periodReturns);
    assert DistinctDates(filled);
    var r := SortIndex(filled);
    var v := CurveFromReturns(r, capital);
    var stored := ReturnsFromReturns(r);
    ChronologicalCurve(r, capital);
    assert Dates(stored) <= Dates(v) by {
      forall d | d in Dates(stored) ensures d in Dates(v) {
        var p :| p in stored && p.date == d;
        var i :| 0 <= i < |stored| && stored[i] == p;
        assert v[i + 1].date == r[i].date == d;
      }
    }
    Series(v, stored, None)
  }

  lemma ChronologicalCurve(r: seq<Point>, capital: real)
    requires r != [] && Chronological(r)
    ensures Chronological(CurveFromReturns(r, capital))
    ensures Chronological(ReturnsFromReturns(r))
  {
    var v := CurveFromReturns(r, capital);
    forall i, j | 0 <= i < j < |v| ensures v[i].date < v[j].date {
      if i == 0 {
        assert v[j].date == r[j - 1].date;
        if j > 1 { assert r[0].date < r[j - 1].date; }
      }
    }
  }

  /** Lines 72-92: the window, then (with a benchmark) the intersection of
      the dates of both return series. */
  function Aligned(built: Series, benchmark: Option<seq<Observation>>, start: int, end: Option<int>): (s: Series)
    requires Chronological(built.values) && Chronological(built.periodReturns) && Dates(built.periodReturns) <= Dates(built.values)
    requires benchmark.Some? ==> DistinctObservations(benchmark.value)
    ensures Chronological(s.values) && Chronological(s.periodReturns)
    ensures forall p :: p in s.values ==> InWindow(p.date, start, end)
    ensures forall p :: p in s.periodReturns ==> InWindow(p.date, start, end)
    ensures Dates(s.periodReturns) <= Dates(s.values)
    ensures benchmark.None? <==> s.benchmark.None?
    ensures s.benchmark.Some? ==>
      && Chronological(s.benchmark.value)
      && (forall p :: p in s.benchmark.value ==> InWindow(p.date, start, end))
      && Dates(s.periodReturns) == Dates(s.values) == Dates(s.benchmark.value)
  {
    var v := Window(built.values, start, end);
    var r := Window(built.periodReturns, start, end);
    match benchmark
    case None => Series(v, r, None)
    case Some(observations) =>
      var filled := FillNa(observations);
      assert DistinctDates(filled);
      var b := Window(SortIndex(filled), start, end);
      var common := Dates(r) * Dates(b);
      WindowKeepsDates(built.periodReturns, built.values, start, end);
      WhereChronological(v, common);
      WhereChronological(r, common);
      WhereChronological(b, common);
      Series(Where(v, common), Where(r, common), Some(Where(b, common)))
  }

  /** Cutting two series to one window keeps the dates of one inside the
      dates of the other. */
  lemma WindowKeepsDates(inner: seq<Point>, outer: seq<Point>, start: int, end: Option<int>)
    requires Dates(inner) <= Dates(outer)
    ensures Dates(Window(inner, start, end)) <= Dates(Window(outer, start, end))
  {
  }

  /** The whole construction. */
  function Constructed(values: Option<seq<Point>>, periodReturns: Option<seq<Observation>>, benchmark: Option<seq<Observation>>,
                       start: int, end: Option<int>, capital: real): Series
    requires values.Some? || (periodReturns.Some? && periodReturns.value != [])
    requires values.Some? ==> DistinctDates(values.value) && forall p :: p in values.value ==> p.value != 0.0
    requires values.None? ==> DistinctObservations(periodReturns.value)
    requires benchmark.Some? ==> DistinctObservations(benchmark.value)
  {
    Aligned(BuiltSeries(values, periodReturns, capital), benchmark, start, end)
  }

  // The backtester object

  /** The figures of `get_performance_summary`: the period (first and last
      return date, as day numbers), the capital, the final capital, the total
      returns, and the quantstats figures, which this model takes as given. */
  datatype Summary = Summary(
    periodStart: int, periodEnd: int,
    initialCapital: real, finalCapital: real, totalReturn: ExtReal, benchmarkTotalReturn: Option<real>,
    statistics: seq<ExtReal>)

  /** The formatting at line 144 finds each float's label through
      `metrics == x`, which no NaN satisfies: a summary can be formatted only
      when none of its figures is NaN. */
  predicate Formattable(s: Summary) {
    !s.totalReturn.NaN? && NaN !in s.statistics
  }

  /** `x / capital - 1` in floating point: a zero capital gives an infinity or
      NaN. */
  function ReturnOn(x: real, capital: real): (r: ExtReal)
    ensures capital != 0.0 ==> r == Finite(x / capital - 1.0)
    ensures capital == 0.0 ==> !r.Finite? && (r.PosInf? <==> x > 0.0) && (r.NegInf? <==> x < 0.0) && (r.NaN? <==> x == 0.0)
  {
    if capital != 0.0 then Finite(x / capital - 1.0)
    else if x > 0.0 then PosInf
    else if x < 0.0 then NegInf
    else NaN
  }

  /** A row of `get_returns_df`: Carteira and, with a benchmark, Benchmark. */
  datatype ReturnsRow = ReturnsRow(date: int, portfolio: real, benchmark: Option<real>)

  /** The value of a series on a date, if it has one. */
  function ValueAt(s: seq<Point>, date: int): (r: Option<real>)
    ensures r.Some? <==> date in Dates(s)
    ensures r.Some? ==> Point(date, r.value) in s
  {
    if s == [] then None
    else if s[0].date == date then Some(s[0].value)
    else
      assert forall p :: p in s <==> p == s[0] || p in s[1..];
      ValueAt(s[1..], date)
  }

  class Backtester {
    var portfolioValues: seq<Point>
    var portfolioReturns: seq<Point>
    var benchmarkReturns: Option<seq<Point>>
    const startDate: int
    const endDate: Option<int>
    const initialCapital: real

    /** Every series is oldest first and inside the window; every return has
        a value on its date; with a benchmark, the three series share one
        index. */
    predicate Valid()
      reads this
    {
      && Chronological(portfolioValues) && Chronological(portfolioReturns)
      && (forall p :: p in portfolioValues ==> InWindow(p.date, startDate, endDate))
      && (forall p :: p in portfolioReturns ==> InWindow(p.date, startDate, endDate))
      && Dates(portfolioReturns) <= Dates(portfolioValues)
      && (benchmarkReturns.Some? ==>
            && Chronological(benchmarkReturns.value)
            && Dates(portfolioReturns) == Dates(portfolioValues) == Dates(benchmarkReturns.value))
    }

    /** `__init__` past its two raising cases (handled by `Create`): build the
        curve and the returns, cut them to the window, and align them with the
        benchmark. */
    constructor (values: Option<seq<Point>>, periodReturns: Option<seq<Observation>>, benchmark: Option<seq<Observation>>,
                 start: int, end: Option<int>, capital: real)
      requires values.Some? || (periodReturns.Some? && periodReturns.value != [])
      requires values.Some? ==> DistinctDates(values.value) && forall p :: p in values.value ==> p.value != 0.0
      requires values.None? ==> DistinctObservations(periodReturns.value)
      requires benchmark.Some? ==> DistinctObservations(benchmark.value)
      ensures Valid()
      ensures startDate == start && endDate == end && initialCapital == capital
      ensures var s := Constructed(values, periodReturns, benchmark, start, end, capital);
        portfolioValues == s.values && portfolioReturns == s.periodReturns && benchmarkReturns == s.benchmark
    {
      startDate := start;
      endDate := end;
      initialCapital := capital;
      var built := BuiltSeries(values, periodReturns, capital);
      portfolioValues := built.values;
      portfolioReturns := built.periodReturns;
      benchmarkReturns := None;
      new;
      portfolioReturns := Window(portfolioReturns, start, end);
      portfolioValues := Window(portfolioValues, start, end);
      if benchmark.Some? {
        var filled := FillNa(benchmark.value);
        assert DistinctDates(filled);
        var b := Window(SortIndex(filled), start, end);
        var common := Dates(portfolioReturns) * Dates(b);
        portfolioReturns := Where(portfolioReturns, common);
        portfolioValues := Where(portfolioValues, common);
        benchmarkReturns := Some(Where(b, common));
      }
      ghost var aligned := Constructed(values, periodReturns, benchmark, start, end, capital);
      assert portfolioValues == aligned.values && portfolioReturns == aligned.periodReturns;
      assert benchmarkReturns == aligned.benchmark;
    }

    /** The figures `get_performance_summary` computes, before they are
        formatted: nothing for empty returns; otherwise the period, the last
        value of the curve, its return on the capital, the benchmark's
        compounded return when there is a non-empty benchmark, and the
        quantstats figures as given. */
    function SummaryFigures(statistics: seq<ExtReal>): (r: Option<Summary>)
      reads this
      requires Valid()
      ensures r.None? <==> portfolioReturns == []
      ensures r.Some? ==> r.value.statistics == statistics
      ensures r.Some? ==>
        && (forall p :: p in portfolioReturns ==> r.value.periodStart <= p.date <= r.value.periodEnd)
        && r.value.periodStart in Dates(portfolioReturns) && r.value.periodEnd in Dates(portfolioReturns)
        && r.value.initialCapital == initialCapital
        && portfolioValues != []
        && r.value.finalCapital == portfolioValues[|portfolioValues| - 1].value
        && r.value.totalReturn == ReturnOn(r.value.finalCapital, initialCapital)
        && (r.value.benchmarkTotalReturn.Some? <==> benchmarkReturns.Some? && benchmarkReturns.value != [])
        && (r.value.benchmarkTotalReturn.Some? ==> r.value.benchmarkTotalReturn.value == Growth(benchmarkReturns.value) - 1.0)
    {
      if portfolioReturns == [] then None
      else
        assert portfolioReturns[0].date in Dates(portfolioValues);
        var final := portfolioValues[|portfolioValues| - 1].value;
        var benchmarkTotal :=
          if benchmarkReturns.Some? && benchmarkReturns.value != [] then Some(Growth(benchmarkReturns.value) - 1.0) else None;
        var first := portfolioReturns[0];
        var last := portfolioReturns[|portfolioReturns| - 1];
        assert forall p :: p in portfolioReturns ==> first.date <= p.date <= last.date by {
          forall p | p in portfolioReturns ensures first.date <= p.date <= last.date {
            var k :| 0 <= k < |portfolioReturns| && portfolioReturns[k] == p;
          }
        }
        Some(Summary(first.date, last.date, initialCapital, final, ReturnOn(final, initialCapital), benchmarkTotal, statistics))
    }

    /** `get_performance_summary` as written: the figures, except that a NaN
        among them makes the formatting at line 144 raise IndexError. The
        total return is NaN exactly when both the capital and the final value
        are 0. */
    function GetPerformanceSummary(statistics: seq<ExtReal>): (r: Outcome<Option<Summary>>)
      reads this
      requires Valid()
      ensures r == Returned(None) <==> portfolioReturns == []
      ensures r.Raised? <==>
        && portfolioReturns != [] && portfolioValues != []
        && ((initialCapital == 0.0 && portfolioValues[|portfolioValues| - 1].value == 0.0) || NaN in statistics)
      ensures r.Raised? ==> r.exception == "IndexError"
      ensures r.Returned? && r.value.Some? ==> r.value == SummaryFigures(statistics) && Formattable(r.value.value)
    {
      match SummaryFigures(statistics)
      case None => Returned(None)
      case Some(s) => if Formattable(s) then Returned(Some(s)) else Raised("IndexError")
    }

    /** `get_returns_df`: one row per return; with a benchmark, its return on
        the same date, which the alignment guarantees is there. */
    function GetReturnsDf(): (rows: seq<ReturnsRow>)
      reads this
      requires Valid()
      ensures |rows| == |portfolioReturns|
      ensures forall i :: 0 <= i < |rows| ==>
        rows[i].date == portfolioReturns[i].date && rows[i].portfolio == portfolioReturns[i].value
      ensures benchmarkReturns.None? ==> forall i :: 0 <= i < |rows| ==> rows[i].benchmark.None?
      ensures benchmarkReturns.Some? ==> forall i :: 0 <= i < |rows| ==>
        rows[i].benchmark.Some? && Point(rows[i].date, rows[i].benchmark.value) in benchmarkReturns.value
    {
      seq(|portfolioReturns|, i requires 0 <= i < |portfolioReturns| reads this =>
        var d := portfolioReturns[i].date;
        assert portfolioReturns[i] in portfolioReturns;
        ReturnsRow(d, portfolioReturns[i].value,
          if benchmarkReturns.Some? then ValueAt(benchmarkReturns.value, d) else None))
    }
  }

  /** `Backtester(...)`: ValueError when neither series is given, IndexError
      when the curve is to be built from an empty return series (it has no
      first date); otherwise a new backtester. */
  method Create(values: Option<seq<Point>>, periodReturns: Option<seq<Observation>>, benchmark: Option<seq<Observation>>,
                start: int, end: Option<int>, capital: real) returns (r: Outcome<Backtester>)
    requires values.Some? ==> DistinctDates(values.value) && forall p :: p in values.value ==> p.value != 0.0
    requires values.None? && periodReturns.Some? ==> DistinctObservations(periodReturns.value)
    requires benchmark.Some? ==> DistinctObservations(benchmark.value)
    ensures values.None? && periodReturns.None? ==> r == Raised("ValueError")
    ensures values.None? && periodReturns.Some? && periodReturns.value == [] ==> r == Raised("IndexError")
    ensures values.Some? || (periodReturns.Some? && periodReturns.value != []) ==>
      && r.Returned? && fresh(r.value) && r.value.Valid()
      && var s := Constructed(values, periodReturns, benchmark, start, end, capital);
        r.value.portfolioValues == s.values && r.value.portfolioReturns == s.periodReturns && r.value.benchmarkReturns == s.benchmark
  {
    if values.None? && periodReturns.None? {
      return Raised("ValueError");
    }
    if values.None? && periodReturns.value == [] {
      return Raised("IndexError");
    }
    var b := new Backtester(values, periodReturns, benchmark, start, end, capital);
    r := Returned(b);
  }

  /** A curve built from returns on a zero capital is 0 throughout. */
  lemma ZeroCapitalCurve(r: seq<Point>)
    requires r != []
    ensures forall p :: p in CurveFromReturns(r, 0.0) ==> p.value == 0.0
  {
    var v := CurveFromReturns(r, 0.0);
    forall p | p in v ensures p.value == 0.0 {
      var i :| 0 <= i < |v| && v[i] == p;
      if i > 0 {
        assert v[i] == Compounded(r, 0.0)[i - 1];
      }
    }
  }

  /** A backtester built from returns on a zero capital, with some return in
      its window, ends its curve at 0: its total return is 0/0 - 1, NaN, and
      `get_performance_summary` raises IndexError whatever the quantstats
      figures are. */
  lemma ZeroCapitalSummaryRaises(b: Backtester, periodReturns: seq<Observation>, start: int, end: Option<int>,
                                 statistics: seq<ExtReal>)
    requires periodReturns != [] && DistinctObservations(periodReturns)
    requires b.Valid() && b.initialCapital == 0.0 && b.portfolioReturns != []
    requires b.portfolioValues == Constructed(None, Some(periodReturns), None, start, end, 0.0).values
    ensures b.SummaryFigures(statistics).Some? && b.SummaryFigures(statistics).value.totalReturn == NaN
    ensures b.GetPerformanceSummary(statistics) == Raised("IndexError")
  {
    var filled := FillNa(periodReturns);
    assert DistinctDates(filled);
    var r := SortIndex(filled);
    var v := CurveFromReturns(r, 0.0);
    var built := SeriesFromReturns(periodReturns, 0.0);
    assert built.values == v;
    assert b.portfolioValues == Window(v, start, end);
    ZeroCapitalCurve(r);
    var values := b.portfolioValues;
    assert values != [] by {
      assert b.portfolioReturns[0].date in Dates(b.portfolioReturns);
    }
    assert values[|values| - 1] in v;
    assert values[|values| - 1].value == 0.0;
  }

  /** The witness: one return on day 5 and a zero capital. */
  method ZeroCapitalExample() returns (r: Outcome<Option<Summary>>)
    ensures r == Raised("IndexError")
  {
    var oneReturn := [Observation(5, Some(0.01))];
    var b := new Backtester(None, Some(oneReturn), None, 0, None, 0.0);
    var filled := FillNa(oneReturn);
    assert filled == [Point(5, 0.01)];
    var sorted := SortIndex(filled);
    assert sorted == filled by {
      assert |sorted| == 1 && sorted[0] in multiset(filled);
    }
    assert ReturnsFromReturns(sorted) == [Point(5, 0.0)];
    assert b.portfolioReturns == Window([Point(5, 0.0)], 0, None);
    assert Point(5, 0.0) in b.portfolioReturns;
    ZeroCapitalSummaryRaises(b, oneReturn, 0, None, []);
    r := b.GetPerformanceSummary([]);
  }
}
