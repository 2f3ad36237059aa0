/**
 * The daily release line under the top timeline: releases per day, cut to the
 * announced date range, thinned to at most one point per two pixels, with a
 * hover that snaps to the nearest point.
 */
module TimelineDetail {
  import opened Games

  /** Inner width: a 1400-pixel container less 50-pixel margins on both sides. */
  const ChartWidth: int := 1300
  /** At or above this many displayed points, only a subset of dots is drawn. */
  const DotLimit: int := 100
  /** The number of dots aimed at when thinning them. */
  const DotTarget: int := 50

  /** One point of the line: the start of a day and the releases on it. */
  datatype DayCount = DayCount(date: int, count: int)

  /** The x-axis tick interval. */
  datatype Ticks = EveryYear | EveryQuarter | EveryMonth | EveryWeek | EveryDays(n: int)

  function DateOf(d: DayCount): int
  {
    d.date
  }

  function CountOf(d: DayCount): int
  {
    d.count
  }

  predicate Ascending(s: seq<DayCount>)
  {
    forall i, j :: 0 <= i < j < |s| ==> s[i].date < s[j].date
  }

  // ---------------------------------------------------------------------------
  // Line data

  function FromSample(s: Sample): DayCount
  {
    DayCount(s.t, s.count)
  }

  function FromBucket(b: Bucket): DayCount
  {
    DayCount(b.key, b.count)
  }

  /** `d3.rollup` by day start, sorted by date. */
  function DailyCounts(data: seq<Game>): seq<DayCount>
  {
    Map(CountByKey(Map(ReleaseTimes(data), DayFloor)), FromBucket)
  }

  /**
   * The computed daily line is ascending, one point per day start, and each
   * point counts exactly the dated records released that day.
   */
  lemma DailyCountsSpec(data: seq<Game>)
    ensures var days := Map(ReleaseTimes(data), DayFloor); var r := DailyCounts(data);
      && Ascending(r)
      && (forall i :: 0 <= i < |r| ==> r[i].date % MsPerDay == 0)
      && (forall i :: 0 <= i < |r| ==> r[i].count == multiset(days)[r[i].date] > 0)
      && (forall t :: t in ReleaseTimes(data) ==> exists i :: 0 <= i < |r| && r[i].date == DayFloor(t))
  {
    var days := Map(ReleaseTimes(data), DayFloor);
    var bs := CountByKey(days);
    CountByKeyCounts(days);
    DayStarts(bs, days);
    EveryDayHasPoint(data, days, bs);
  }

  lemma DayStarts(bs: seq<Bucket>, days: seq<int>)
    requires forall i :: 0 <= i < |days| ==> days[i] % MsPerDay == 0
    requires forall i :: 0 <= i < |bs| ==> multiset(days)[bs[i].key] > 0
    ensures forall i :: 0 <= i < |bs| ==> bs[i].key % MsPerDay == 0
  {
    forall i | 0 <= i < |bs|
      ensures bs[i].key % MsPerDay == 0
    {
      assert bs[i].key in days;
    }
  }

  lemma EveryDayHasPoint(data: seq<Game>, days: seq<int>, bs: seq<Bucket>)
    requires days == Map(ReleaseTimes(data), DayFloor)
    requires forall k :: k in days ==> exists i :: 0 <= i < |bs| && bs[i].key == k
    ensures forall t :: t in ReleaseTimes(data) ==> exists i :: 0 <= i < |bs| && bs[i].key == DayFloor(t)
  {
    forall t | t in ReleaseTimes(data)
      ensures exists i :: 0 <= i < |bs| && bs[i].key == DayFloor(t)
    {
      var k :| 0 <= k < |ReleaseTimes(data)| && ReleaseTimes(data)[k] == t;
      assert days[k] == DayFloor(t) && days[k] in days;
    }
  }

  /**
   * `lineData`: the precomputed daily counts when present; otherwise the
   * records counted per day, or None when there are no records or none has a
   * valid date (then `updateVis` returns without assigning it).
   */
  function LineData(pre: Option<Precomputed>, data: seq<Game>): Option<seq<DayCount>>
  {
    if pre.Some? then Some(Map(pre.value.daily, FromSample))
    else if data == [] then None
    else if forall i :: 0 <= i < |data| ==> data[i].releaseDate.InvalidDate? then None
    else Some(DailyCounts(data))
  }

  /** A two-entry range of valid dates. */
  predicate ValidRange(timeRange: Option<seq<Instant>>)
  {
    timeRange.Some? && |timeRange.value| == 2 && timeRange.value[0].At? && timeRange.value[1].At?
  }

  /** `filteredLineData`: the points inside a valid range, both ends included, or all of them. */
  function Windowed(line: seq<DayCount>, timeRange: Option<seq<Instant>>): seq<DayCount>
  {
    if ValidRange(timeRange) then
      Filter(line, (d: DayCount) => InRange(At(d.date), timeRange.value[0], timeRange.value[1]))
    else line
  }

  /** `s.filter((_, i) => i % k === 0)` */
  function KeepEvery<T>(s: seq<T>, k: nat): seq<T>
    requires k > 0
  {
    if s == [] then []
    else KeepEvery(s[..|s| - 1], k) + (if (|s| - 1) % k == 0 then [s[|s| - 1]] else [])
  }

  lemma DivBetween(m: int, k: int, q: int)
    requires k > 0 && q * k <= m < q * k + k
    ensures m / k == q
  {
    var d := m / k;
    if d < q {
      MulLeq(d + 1, q, k);
    } else if d > q {
      MulLeq(q + 1, d, k);
    }
  }

  lemma MulLeq(a: int, b: int, k: int)
    requires a <= b && k >= 0
    ensures a * k <= b * k
  {
    assert b * k - a * k == (b - a) * k;
  }

  /**
   * Keeping every k-th element keeps exactly the elements at the multiples of
   * k, in order: ceil(|s| / k) of them.
   */
  lemma {:induction false} KeepEveryShape<T>(s: seq<T>, k: nat)
    requires k > 0
    ensures |KeepEvery(s, k)| == (|s| + k - 1) / k
    ensures forall j :: 0 <= j < |KeepEvery(s, k)| ==> j * k < |s| && KeepEvery(s, k)[j] == s[j * k]
  {
    if s != [] {
      var n := |s| - 1;
      var init := s[..n];
      KeepEveryShape(init, k);
      var before := KeepEvery(init, k);
      KeepEveryLength(n, k);
      if n % k == 0 {
        assert KeepEvery(s, k) == before + [s[n]];
        assert |before| * k == n;
      } else {
        assert KeepEvery(s, k) == before;
      }
    }
  }

  /** Index n is a multiple of k exactly when the count of multiples grows past it. */
  lemma KeepEveryLength(n: nat, k: nat)
    requires k > 0
    ensures n % k == 0 ==> (n + k) / k == (n + k - 1) / k + 1 && ((n + k - 1) / k) * k == n
    ensures n % k != 0 ==> (n + k) / k == (n + k - 1) / k
  {
    var q := n / k;
    var r := n % k;
    var qk := q * k;
    assert n == qk + r;
    assert (q + 1) * k == qk + k;
    assert (q + 2) * k == qk + k + k;
    if r == 0 {
      DivBetween(n + k - 1, k, q);
      DivBetween(n + k, k, q + 1);
    } else {
      DivBetween(n + k - 1, k, q + 1);
      DivBetween(n + k, k, q + 1);
    }
  }

  /** Thinning n points with a step of at least n / m leaves at most m. */
  lemma KeepEveryAtMost<T>(s: seq<T>, k: nat, m: nat)
    requires k > 0 && |s| <= m * k
    ensures |KeepEvery(s, k)| <= m
  {
    KeepEveryShape(s, k);
    var q := (|s| + k - 1) / k;
    assert q * k <= |s| + k - 1 < m * k + k;
    if q > m {
      MulLeq(m + 1, q, k);
    }
  }

  /** The thinning step for n points and a target of m: `Math.ceil(n / m)`. */
  function Step(n: nat, m: real): (k: nat)
    requires m > 0.0 && n as real > m
    ensures k >= 1 && n as real <= m * k as real
  {
    var c := Ceil(n as real / m);
    assert n as real == m * (n as real / m);
    c
  }

  /** `displayData`: above half the width in points, every k-th point so that at most 650 remain. */
  function Downsample(s: seq<DayCount>): seq<DayCount>
  {
    var half := ChartWidth as real / 2.0;
    if |s| as real > half then KeepEvery(s, Step(|s|, half)) else s
  }

  /** The displayed line keeps the first point and has at most 650 points. */
  lemma DownsampleBound(s: seq<DayCount>)
    ensures |Downsample(s)| <= ChartWidth / 2
    ensures s != [] ==> Downsample(s) != [] && Downsample(s)[0] == s[0]
    ensures forall j :: 0 <= j < |Downsample(s)| ==> Downsample(s)[j] in s
  {
    if |s| as real > ChartWidth as real / 2.0 {
      var k := Step(|s|, ChartWidth as real / 2.0);
      assert |s| <= (ChartWidth / 2) * k;
      KeepEveryAtMost(s, k, ChartWidth / 2);
      KeepEveryShape(s, k);
      assert 0 * k == 0;
    }
  }

  /** The dots drawn: all displayed points below 100, else every k-th so that about 50 remain. */
  function Dots(display: seq<DayCount>): seq<DayCount>
  {
    if |display| < DotLimit then display
    else KeepEvery(display, Step(|display|, DotTarget as real))
  }

  lemma DotsBound(display: seq<DayCount>)
    ensures |Dots(display)| < DotLimit
    ensures |display| >= DotLimit ==> |Dots(display)| <= DotTarget
  {
    if |display| >= DotLimit {
      var k := Step(|display|, DotTarget as real);
      assert |display| <= DotTarget * k;
      KeepEveryAtMost(display, k, DotTarget);
    }
  }

  lemma {:induction false} FilterAscending(s: seq<DayCount>, p: DayCount -> bool)
    requires Ascending(s)
    ensures Ascending(Filter(s, p))
  {
    if s != [] {
      var init := s[..|s| - 1];
      FilterAscending(init, p);
      var f := Filter(init, p);
      forall i | 0 <= i < |f|
        ensures f[i].date < s[|s| - 1].date
      {
        assert f[i] in init;
      }
    }
  }

  lemma KeepEveryAscending(s: seq<DayCount>, k: nat)
    requires k > 0 && Ascending(s)
    ensures Ascending(KeepEvery(s, k))
  {
    KeepEveryShape(s, k);
    var r := KeepEvery(s, k);
    forall i, j | 0 <= i < j < |r|
      ensures r[i].date < r[j].date
    {
      MulLeq(i + 1, j, k);
    }
  }

  /** An ascending line stays ascending once windowed and thinned. */
  lemma DisplayAscending(line: seq<DayCount>, timeRange: Option<seq<Instant>>)
    requires Ascending(line)
    ensures Ascending(Downsample(Windowed(line, timeRange)))
  {
    var w := Windowed(line, timeRange);
    if ValidRange(timeRange) {
      FilterAscending(line, (d: DayCount) => InRange(At(d.date), timeRange.value[0], timeRange.value[1]));
    }
    if |w| as real > ChartWidth as real / 2.0 {
      KeepEveryAscending(w, Step(|w|, ChartWidth as real / 2.0));
    }
  }

  /** The x domain: a valid range as given, otherwise the extent of the whole line. */
  function XDomain(line: seq<DayCount>, timeRange: Option<seq<Instant>>): (r: Range)
    requires line != []
    ensures r.start.At? && r.end.At?
    ensures !ValidRange(timeRange) ==> forall i :: 0 <= i < |line| ==> InRange(At(line[i].date), r.start, r.end)
  {
    if ValidRange(timeRange) then Range(timeRange.value[0], timeRange.value[1])
    else Extent(line, DateOf)
  }

  function MaxCount(s: seq<DayCount>): (m: int)
    requires s != []
    ensures forall i :: 0 <= i < |s| ==> s[i].count <= m
    ensures exists i :: 0 <= i < |s| && s[i].count == m
  {
    LatestTime(s, CountOf)
  }

  /** The top of the y domain: 10% above the largest count, NaN for no points. */
  function YTop(filtered: seq<DayCount>): (r: Num)
    ensures filtered == [] <==> r == NaN
    ensures filtered != [] ==> forall i :: 0 <= i < |filtered| ==> filtered[i].count as real * 1.1 <= r.v
  {
    if filtered == [] then NaN else Val(MaxCount(filtered) as real * 1.1)
  }

  /** The tick interval for a domain spanning the given number of days. */
  function TicksFor(days: real): Ticks
  {
    if days > 730.0 then EveryYear
    else if days > 180.0 then EveryQuarter
    else if days > 60.0 then EveryMonth
    else if days > 14.0 then EveryWeek
    else EveryDays(Ceil(days / 7.0))
  }

  function TickRank(t: Ticks): nat
  {
    match t
    case EveryDays(_) => 0
    case EveryWeek => 1
    case EveryMonth => 2
    case EveryQuarter => 3
    case EveryYear => 4
  }

  /**
   * A longer domain never gets finer ticks, and short positive domains get a
   * tick every one or two days.
   */
  lemma TicksMonotone(a: real, b: real)
    requires a <= b
    ensures TickRank(TicksFor(a)) <= TickRank(TicksFor(b))
    ensures 0.0 < a <= 14.0 ==> TicksFor(a).EveryDays? && 1 <= TicksFor(a).n <= 2
  {
  }

  // ---------------------------------------------------------------------------
  // Hover

  function Dist(a: int, b: int): nat
  {
    if a >= b then a - b else b - a
  }

  /**
   * `d3.bisector(d => d.date).left`: the first index whose date is not before
   * x, by halving.
   */
  method BisectLeft(s: seq<DayCount>, x: int) returns (i: nat)
    ensures i <= |s|
    ensures Ascending(s) ==> forall j :: 0 <= j < i ==> s[j].date < x
    ensures Ascending(s) ==> forall j :: i <= j < |s| ==> s[j].date >= x
  {
    var lo, hi := 0, |s|;
    while lo < hi
      invariant 0 <= lo <= hi <= |s|
      invariant Ascending(s) ==> forall j :: 0 <= j < lo ==> s[j].date < x
      invariant Ascending(s) ==> forall j :: hi <= j < |s| ==> s[j].date >= x
      decreases hi - lo
    {
      var mid := (lo + hi) / 2;
      if s[mid].date < x {
        lo := mid + 1;
      } else {
        hi := mid;
      }
    }
    i := lo;
  }

  /** Of the point before the bisection index and the one at it, the closer; ties go to the earlier. */
  function Closer(s: seq<DayCount>, i: nat, x: int): DayCount
    requires i < |s|
  {
    var d0 := s[if i >= 1 then i - 1 else 0];
    var d1 := s[i];
    if x - d0.date > d1.date - x then d1 else d0
  }

  /** On an ascending line, the point chosen at the bisection index is a nearest one to x. */
  lemma CloserIsNearest(s: seq<DayCount>, i: nat, x: int)
    requires Ascending(s) && i < |s|
    requires forall j :: 0 <= j < i ==> s[j].date < x
    requires forall j :: i <= j < |s| ==> s[j].date >= x
    ensures Closer(s, i, x) in s
    ensures forall j :: 0 <= j < |s| ==> Dist(Closer(s, i, x).date, x) <= Dist(s[j].date, x)
  {
    var c := Closer(s, i, x);
    forall j | 0 <= j < |s|
      ensures Dist(c.date, x) <= Dist(s[j].date, x)
    {
      if j < i {
        assert j == i - 1 || s[j].date < s[i - 1].date;
      } else {
        assert j == i || s[i].date < s[j].date;
      }
    }
  }

  // ---------------------------------------------------------------------------
  // The view

  class TimeLineDetailView {
    var data: seq<Game>
    /** Null until the first `filterTime`. */
    var timeRange: Option<seq<Instant>>
    /** None while undefined. */
    var lineData: Option<seq<DayCount>>
    var filteredLineData: Option<seq<DayCount>>
    var displayData: Option<seq<DayCount>>
    var xDomain: Range
    var yTop: Num
    var ticks: Option<Ticks>

    /** The line, its window, the displayed points, the scales and the ticks agree with `lineData`. */
    predicate Rendered()
      reads this`lineData, this`timeRange, this`filteredLineData, this`displayData
      reads this`xDomain, this`yTop, this`ticks
    {
      && lineData.Some? && lineData.value != []
      && Drawn(lineData.value, timeRange, filteredLineData, displayData, xDomain, yTop, ticks)
    }

    constructor (data: seq<Game>, pre: Option<Precomputed>)
      ensures this.data == data && timeRange == None
      ensures LineData(pre, data).Some? && LineData(pre, data).value != [] ==> Rendered()
    {
      this.data := data;
      timeRange := None;
      lineData := None;
      filteredLineData := None;
      displayData := None;
      xDomain := DefaultTimeDomain();
      yTop := Val(1.0);
      ticks := None;
      new;
      UpdateVis(pre);
    }

    /**
     * Recompute the daily line and redraw. With no line data nothing changes;
     * with an empty line only `lineData` is emptied.
     */
    method UpdateVis(pre: Option<Precomputed>)
      modifies this`lineData, this`filteredLineData, this`displayData, this`xDomain, this`yTop, this`ticks
      ensures LineData(pre, data).None? ==> unchanged(this)
      ensures LineData(pre, data) == Some([]) ==>
        && lineData == Some([]) && filteredLineData == old(filteredLineData) && displayData == old(displayData)
        && xDomain == old(xDomain) && yTop == old(yTop) && ticks == old(ticks)
      ensures LineData(pre, data).Some? && LineData(pre, data).value != [] ==>
        lineData == LineData(pre, data) && Rendered()
    {
      SetLine(LineData(pre, data));
    }

    /** Keep the daily points, if any, and draw them when there are some. */
    method SetLine(line: Option<seq<DayCount>>)
      modifies this`lineData, this`filteredLineData, this`displayData, this`xDomain, this`yTop, this`ticks
      ensures line.None? ==> unchanged(this)
      ensures line == Some([]) ==>
        && lineData == Some([]) && filteredLineData == old(filteredLineData) && displayData == old(displayData)
        && xDomain == old(xDomain) && yTop == old(yTop) && ticks == old(ticks)
      ensures line.Some? && line.value != [] ==> lineData == line && Rendered()
    {
      if line.None? {
        return;
      }
      lineData := line;
      if line.value == [] {
        return;
      }
      ShowLine(line.value);
    }

    /** Window, thin, scale and tick the line. */
    method ShowLine(line: seq<DayCount>)
      requires line != [] && lineData == Some(line)
      modifies this`filteredLineData, this`displayData, this`xDomain, this`yTop, this`ticks
      ensures Rendered()
    {
      var filtered := Windowed(line, timeRange);
      filteredLineData := Some(filtered);
      displayData := Some(Downsample(filtered));
      xDomain := XDomain(line, timeRange);
      yTop := YTop(filtered);
      ticks := Some(TicksFor(SpanDays(xDomain.start.ms, xDomain.end.ms)));
    }

    /**
     * The hover: the displayed point nearest to the hovered date, or nothing
     * when no point lies at or after it (or nothing was displayed yet).
     */
    method HandleMouseMove(hovered: int) returns (closest: Option<DayCount>)
      ensures displayData.None? ==> closest.None?
      ensures displayData.Some? && Ascending(displayData.value) ==>
        && (closest.None? <==> forall j :: 0 <= j < |displayData.value| ==> displayData.value[j].date < hovered)
        && (closest.Some? ==> closest.value in displayData.value)
        && (closest.Some? ==> forall j :: 0 <= j < |displayData.value| ==>
              Dist(closest.value.date, hovered) <= Dist(displayData.value[j].date, hovered))
    {
      if displayData.None? {
        return None;
      }
      var display := displayData.value;
      var index := BisectLeft(display, hovered);
      if index >= |display| {
        return None;
      }
      closest := Some(Closer(display, index, hovered));
      if Ascending(display) {
        CloserIsNearest(display, index, hovered);
      }
    }
  }

  /** The fields `updateVis` derives from a non-empty line and the range. */
  predicate Drawn(line: seq<DayCount>, timeRange: Option<seq<Instant>>, filtered: Option<seq<DayCount>>,
                  display: Option<seq<DayCount>>, xDomain: Range, yTop: Num, ticks: Option<Ticks>)
    requires line != []
  {
    && filtered == Some(Windowed(line, timeRange))
    && display == Some(Downsample(filtered.value))
    && xDomain == XDomain(line, timeRange)
    && yTop == YTop(filtered.value)
    && ticks == Some(TicksFor(SpanDays(xDomain.start.ms, xDomain.end.ms)))
  }
}
