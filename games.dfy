/**
 * Values shared by every view of the dashboard: a game record as loaded from the
 * CSV file, JavaScript number and Date coercion, the string operations the views
 * apply to the publisher column, and the list steps (filter, stable descending
 * sort, grouping by key) that the views chain together.
 */
module Games {

  datatype Option<T> = None | Some(value: T)

  /** A JavaScript number produced by unary `+`: a finite value or NaN. */
  datatype Num = Val(v: real) | NaN

  /** `+x || 0`: NaN (and 0) become 0. */
  function OrZero(n: Num): real
  {
    match n
    case Val(v) => v
    case NaN => 0.0
  }

  /** A JavaScript Date: milliseconds since the epoch, or an invalid Date. */
  datatype Instant = At(ms: int) | InvalidDate

  /** `a <= b` on Dates; every comparison with an invalid Date is false. */
  predicate AtOrBefore(a: Instant, b: Instant)
  {
    a.At? && b.At? && a.ms <= b.ms
  }

  /** `lo <= d && d <= hi`, the inclusive range test every view uses. */
  predicate InRange(d: Instant, lo: Instant, hi: Instant)
  {
    AtOrBefore(lo, d) && AtOrBefore(d, hi)
  }

  /**
   * One row of the games file. `name` is the `Name` column, `publishers` the
   * raw comma-joined column (the empty string when missing), `category` the
   * `class` column.
   */
  datatype Game = Game(
    appId: int,
    name: string,
    publishers: string,
    category: string,
    releaseDate: Instant,
    price: Num,
    peakCCU: Num,
    reviewRatio: Num,
    revenue: Num)

  predicate IsIndie(g: Game)
  {
    g.category == "Indie"
  }

  /** `+d["Peak CCU"] || 0` */
  function Peak(g: Game): real
  {
    OrZero(g.peakCCU)
  }

  /** `+d["Review Ratio"] || 0` */
  function ReviewRatio(g: Game): real
  {
    OrZero(g.reviewRatio)
  }

  // ---------------------------------------------------------------------------
  // Numbers

  /** `Math.ceil` */
  function Ceil(x: real): (r: int)
    ensures x <= r as real < x + 1.0
  {
    -((-x).Floor)
  }

  /** `Math.round`: halves go up. */
  function Round(x: real): (r: int)
    ensures x - 0.5 < r as real <= x + 0.5
  {
    (x + 0.5).Floor
  }

  function Min(a: int, b: int): int
  {
    if a <= b then a else b
  }

  // ---------------------------------------------------------------------------
  // Dates

  const MsPerDay: int := 86_400_000

  /** `setDate(getDate() + n)`, on UTC milliseconds. */
  function AddDays(t: int, n: int): int
  {
    t + n * MsPerDay
  }

  /** `setFullYear(getFullYear() + n)`, with every year 365 days long. */
  function AddYears(t: int, n: int): int
  {
    t + n * 365 * MsPerDay
  }

  /** Number of leap years among the years 1 .. n of the proleptic Gregorian calendar. */
  function LeapYearsThrough(n: int): int
  {
    n / 4 - n / 100 + n / 400
  }

  /** `new Date(y, 0, 1)`: midnight of January 1st of year y, in UTC milliseconds. */
  function YearStart(y: int): int
  {
    (365 * (y - 1970) + LeapYearsThrough(y - 1) - LeapYearsThrough(1969)) * MsPerDay
  }

  /** `d3.timeDay.floor`: the start of the (UTC) day holding t. */
  function DayFloor(t: int): (r: int)
    ensures r <= t < r + MsPerDay
    ensures r % MsPerDay == 0
  {
    t - t % MsPerDay
  }

  /** Span of [t0, t1] in days, `(t1 - t0) / (1000 * 60 * 60 * 24)`. */
  function SpanDays(t0: int, t1: int): real
  {
    (t1 - t0) as real / MsPerDay as real
  }

  /** A date range `[start, end]`, as announced by `filterTime` and held by a time scale's domain. */
  datatype Range = Range(start: Instant, end: Instant)

  /** d3's default time-scale domain, January 1st and 2nd of 2000, before any data is set. */
  function DefaultTimeDomain(): (r: Range)
    ensures r.start == At(YearStart(2000)) && r.end.At? && r.end.ms - r.start.ms == MsPerDay
  {
    Range(At(YearStart(2000)), At(YearStart(2000) + MsPerDay))
  }

  /** A record whose release date parsed to a valid Date. */
  predicate Dated(g: Game)
  {
    g.releaseDate.At?
  }

  /** The release times of the records that have a valid date, in record order. */
  function ReleaseTimes(data: seq<Game>): (r: seq<int>)
    ensures |r| <= |data| && |r| == |Filter(data, Dated)|
    ensures forall i :: 0 <= i < |r| ==> Filter(data, Dated)[i].releaseDate == At(r[i])
    ensures r == [] <==> forall i :: 0 <= i < |data| ==> data[i].releaseDate.InvalidDate?
  {
    if data == [] then []
    else
      var init := ReleaseTimes(data[..|data| - 1]);
      var d := data[|data| - 1].releaseDate;
      assert forall i :: 0 <= i < |data| - 1 ==> data[..|data| - 1][i] == data[i];
      DatedSnoc(data);
      if d.At? then init + [d.ms] else init
  }

  lemma DatedSnoc(data: seq<Game>)
    requires data != []
    ensures Filter(data, Dated) == Filter(data[..|data| - 1], Dated) + (if Dated(data[|data| - 1]) then [data[|data| - 1]] else [])
  {
    assert data == data[..|data| - 1] + [data[|data| - 1]];
    FilterAppend(data[..|data| - 1], [data[|data| - 1]], Dated);
  }

  function EarliestTime<T>(s: seq<T>, time: T -> int): (t: int)
    requires s != []
    ensures forall i :: 0 <= i < |s| ==> t <= time(s[i])
    ensures exists i :: 0 <= i < |s| && time(s[i]) == t
  {
    if |s| == 1 then time(s[0])
    else
      var r := EarliestTime(s[1..], time);
      assert forall i :: 1 <= i < |s| ==> s[i] == s[1..][i - 1];
      if time(s[0]) <= r then time(s[0]) else r
  }

  function LatestTime<T>(s: seq<T>, time: T -> int): (t: int)
    requires s != []
    ensures forall i :: 0 <= i < |s| ==> time(s[i]) <= t
    ensures exists i :: 0 <= i < |s| && time(s[i]) == t
  {
    if |s| == 1 then time(s[0])
    else
      var r := LatestTime(s[1..], time);
      assert forall i :: 1 <= i < |s| ==> s[i] == s[1..][i - 1];
      if time(s[0]) >= r then time(s[0]) else r
  }

  /** `d3.extent(s, time)`: the earliest and latest time, [undefined, undefined] for none. */
  function Extent<T>(s: seq<T>, time: T -> int): (r: Range)
    ensures s == [] <==> r == Range(InvalidDate, InvalidDate)
    ensures s != [] ==> r.start.At? && r.end.At? && r.start.ms <= r.end.ms
    ensures forall i :: 0 <= i < |s| ==> InRange(At(time(s[i])), r.start, r.end)
    ensures s != [] ==> exists i :: 0 <= i < |s| && time(s[i]) == r.start.ms
    ensures s != [] ==> exists i :: 0 <= i < |s| && time(s[i]) == r.end.ms
  {
    if s == [] then Range(InvalidDate, InvalidDate)
    else Range(At(EarliestTime(s, time)), At(LatestTime(s, time)))
  }

  /** One row of the pre-aggregated release counts: a bucket's start time and its count. */
  datatype Sample = Sample(t: int, count: int)

  /**
   * `window.precomputedData`: the daily, monthly and yearly release counts read
   * from the pre-aggregated file, one list per granularity.
   */
  datatype Precomputed = Precomputed(daily: seq<Sample>, monthly: seq<Sample>, yearly: seq<Sample>)

  // ---------------------------------------------------------------------------
  // Strings

  /** Characters `String.prototype.trim` removes (Unicode space separators other than U+00A0 left out). */
  const JsSpaces: set<char> :=
    {' ', '\t', '\n', '\r', '\U{B}', '\U{C}', '\U{A0}', '\U{FEFF}', '\U{2028}', '\U{2029}'}

  predicate IsJsSpace(c: char)
  {
    c in JsSpaces
  }

  /** Every character of t is one that trimming removes. */
  predicate AllSpace(t: string)
  {
    forall i :: 0 <= i < |t| ==> IsJsSpace(t[i])
  }

  function TrimStart(s: string): (r: string)
    ensures |r| <= |s| && r == s[|s| - |r|..]
    ensures r == [] || !IsJsSpace(r[0])
    ensures AllSpace(s[..|s| - |r|])
  {
    if s != [] && IsJsSpace(s[0]) then
      var r := TrimStart(s[1..]);
      assert s[..|s| - |r|] == [s[0]] + s[1..][..|s| - 1 - |r|];
      r
    else s
  }

  function TrimEnd(s: string): (r: string)
    ensures |r| <= |s| && r == s[..|r|]
    ensures r == [] || !IsJsSpace(r[|r| - 1])
    ensures AllSpace(s[|r|..])
  {
    if s != [] && IsJsSpace(s[|s| - 1]) then
      var r := TrimEnd(s[..|s| - 1]);
      assert s[|r|..] == s[..|s| - 1][|r|..] + [s[|s| - 1]];
      r
    else s
  }

  /** `String.prototype.trim` */
  function Trim(s: string): string
  {
    TrimEnd(TrimStart(s))
  }

  /** Trimming keeps a contiguous run of s. */
  lemma TrimIsInfix(s: string)
    ensures var k := |s| - |TrimStart(s)|;
      Trim(s) == s[k..k + |Trim(s)|]
  {
    var t := TrimStart(s);
    var k := |s| - |t|;
    var r := TrimEnd(t);
    assert t == s[k..] && r == t[..|r|];
    assert s[k..][..|r|] == s[k..k + |r|];
  }

  /** A trimmed string neither starts nor ends with a space. */
  lemma TrimmedEnds(s: string)
    ensures Trim(s) == [] || (!IsJsSpace(Trim(s)[0]) && !IsJsSpace(Trim(s)[|Trim(s)| - 1]))
  {
    var t := TrimStart(s);
    var r := TrimEnd(t);
    if r != [] {
      assert r[0] == t[0];
    }
  }

  /** `s.split(sep)`: the pieces between separators, at least one, none holding a separator. */
  function Split(s: string, sep: char): (r: seq<string>)
    ensures |r| >= 1
    ensures forall i :: 0 <= i < |r| ==> sep !in r[i]
  {
    if s == [] then [""]
    else
      var rest := Split(s[1..], sep);
      if s[0] == sep then [""] + rest
      else [[s[0]] + rest[0]] + rest[1..]
  }

  /** `pieces.join(sep)` */
  function Join(pieces: seq<string>, sep: char): string
    requires |pieces| >= 1
  {
    if |pieces| == 1 then pieces[0] else pieces[0] + [sep] + Join(pieces[1..], sep)
  }

  lemma JoinConsFirst(c: char, pieces: seq<string>, sep: char)
    requires |pieces| >= 1
    ensures Join([[c] + pieces[0]] + pieces[1..], sep) == [c] + Join(pieces, sep)
  {
    var p := [[c] + pieces[0]] + pieces[1..];
    assert p[1..] == pieces[1..];
  }

  /** Joining the pieces of a split with the same separator gives the string back. */
  lemma {:induction false} JoinSplit(s: string, sep: char)
    ensures Join(Split(s, sep), sep) == s
  {
    if s != [] {
      var rest := Split(s[1..], sep);
      JoinSplit(s[1..], sep);
      if s[0] == sep {
        assert ([""] + rest)[1..] == rest;
      } else {
        JoinConsFirst(s[0], rest, sep);
      }
    }
  }

  /** Splitting a joined list of separator-free pieces gives the pieces back. */
  lemma {:induction false} SplitJoin(pieces: seq<string>, sep: char)
    requires |pieces| >= 1
    requires forall i :: 0 <= i < |pieces| ==> sep !in pieces[i]
    ensures Split(Join(pieces, sep), sep) == pieces
  {
    if |pieces| == 1 {
      SplitNoSep(pieces[0], sep);
    } else {
      SplitJoin(pieces[1..], sep);
      SplitPrefix(pieces[0], Join(pieces[1..], sep), sep);
      assert [pieces[0]] + pieces[1..] == pieces;
    }
  }

  lemma {:induction false} SplitNoSep(s: string, sep: char)
    requires sep !in s
    ensures Split(s, sep) == [s]
  {
    if s != [] {
      SplitNoSep(s[1..], sep);
      assert [s[0]] + s[1..] == s;
    }
  }

  lemma {:induction false} SplitPrefix(a: string, b: string, sep: char)
    requires sep !in a
    ensures Split(a + [sep] + b, sep) == [a] + Split(b, sep)
  {
    if a == [] {
      assert a + [sep] + b == [sep] + b;
      assert ([sep] + b)[1..] == b;
    } else {
      assert (a + [sep] + b)[1..] == a[1..] + [sep] + b;
      SplitPrefix(a[1..], b, sep);
      assert [a[0]] + a[1..] == a;
    }
  }

  /** ASCII part of `String.prototype.toLowerCase`. */
  function LowerChar(c: char): (r: char)
  {
    if 'A' <= c <= 'Z' then (c as int + 32) as char else c
  }

  function ToLower(s: string): (r: string)
    ensures |r| == |s|
    ensures forall i :: 0 <= i < |s| ==> r[i] == LowerChar(s[i])
  {
    if s == [] then [] else [LowerChar(s[0])] + ToLower(s[1..])
  }

  // ---------------------------------------------------------------------------
  // List steps

  /** `s.filter(p)`, keeping order. */
  function Filter<T(!new)>(s: seq<T>, p: T -> bool): (r: seq<T>)
    ensures |r| <= |s|
    ensures forall i :: 0 <= i < |r| ==> p(r[i])
    ensures forall x :: x in r <==> x in s && p(x)
  {
    if s == [] then []
    else
      var init := Filter(s[..|s| - 1], p);
      var last := s[|s| - 1];
      assert s == s[..|s| - 1] + [last];
      if p(last) then init + [last] else init
  }

  lemma {:induction false} FilterSubMultiset<T(!new)>(s: seq<T>, p: T -> bool)
    ensures multiset(Filter(s, p)) <= multiset(s)
  {
    if s != [] {
      var init := s[..|s| - 1];
      FilterSubMultiset(init, p);
      assert s == init + [s[|s| - 1]];
    }
  }

  lemma FilterAppend<T(!new)>(a: seq<T>, b: seq<T>, p: T -> bool)
    ensures Filter(a + b, p) == Filter(a, p) + Filter(b, p)
    decreases |b|
  {
    if b != [] {
      assert (a + b)[..|a + b| - 1] == a + b[..|b| - 1];
      FilterAppend(a, b[..|b| - 1], p);
    } else {
      assert a + b == a;
    }
  }

  /** Two filters one after the other are one filter by both tests. */
  lemma {:induction false} FilterFilter<T(!new)>(s: seq<T>, p: T -> bool, q: T -> bool, pq: T -> bool)
    requires forall x :: pq(x) == (p(x) && q(x))
    ensures Filter(Filter(s, p), q) == Filter(s, pq)
  {
    if s != [] {
      var init := s[..|s| - 1];
      var last := s[|s| - 1];
      FilterFilter(init, p, q, pq);
      if p(last) {
        FilterAppend(Filter(init, p), [last], q);
      }
    }
  }

  /** A filter whose test holds everywhere keeps everything. */
  lemma {:induction false} FilterAll<T(!new)>(s: seq<T>, p: T -> bool)
    requires forall x :: p(x)
    ensures Filter(s, p) == s
  {
    if s != [] {
      FilterAll(s[..|s| - 1], p);
    }
  }

  /** Filters by tests that agree everywhere agree. */
  lemma {:induction false} FilterSame<T(!new)>(s: seq<T>, p: T -> bool, q: T -> bool)
    requires forall x :: p(x) == q(x)
    ensures Filter(s, p) == Filter(s, q)
  {
    if s != [] {
      FilterSame(s[..|s| - 1], p, q);
    }
  }

  /** Filtering the images is mapping the elements whose image passes. */
  lemma {:induction false} FilterMap<T(!new), U(!new)>(s: seq<T>, f: T -> U, p: U -> bool, pf: T -> bool)
    requires forall x :: pf(x) == p(f(x))
    ensures Filter(Map(s, f), p) == Map(Filter(s, pf), f)
  {
    if s != [] {
      var init, last := s[..|s| - 1], s[|s| - 1];
      var m := Map(s, f);
      FilterMap(init, f, p, pf);
      MapPrefix(s, f, |s| - 1);
      assert Filter(m, p) == Filter(Map(init, f), p) + (if p(f(last)) then [f(last)] else []);
      var kept := Filter(init, pf);
      if pf(last) {
        MapAppend(kept, [last], f);
      } else {
        assert Filter(s, pf) == kept;
      }
    }
  }

  /** A filter on the images of a filtered list is one filter on the list, then the map. */
  lemma FilterMapFilter<T(!new), U(!new)>(s: seq<T>, keep: T -> bool, f: T -> U, p: U -> bool, keep2: T -> bool)
    requires forall x :: keep2(x) == (keep(x) && p(f(x)))
    ensures Filter(Map(Filter(s, keep), f), p) == Map(Filter(s, keep2), f)
  {
    var pf := (x: T) => p(f(x));
    FilterMap(Filter(s, keep), f, p, pf);
    FilterFilter(s, keep, pf, keep2);
  }

  lemma MapPrefix<T, U>(s: seq<T>, f: T -> U, k: nat)
    requires k <= |s|
    ensures Map(s, f)[..k] == Map(s[..k], f)
  {
  }

  lemma MapAppend<T, U>(a: seq<T>, b: seq<T>, f: T -> U)
    ensures Map(a + b, f) == Map(a, f) + Map(b, f)
  {
  }

  /** `s.map(f)` */
  function Map<T, U>(s: seq<T>, f: T -> U): (r: seq<U>)
    ensures |r| == |s|
    ensures forall i :: 0 <= i < |s| ==> r[i] == f(s[i])
  {
    seq(|s|, i requires 0 <= i < |s| => f(s[i]))
  }

  predicate SortedDesc<T>(s: seq<T>, key: T -> real)
  {
    forall i, j :: 0 <= i < j < |s| ==> key(s[i]) >= key(s[j])
  }

  function InsertDesc<T>(x: T, s: seq<T>, key: T -> real): (r: seq<T>)
    requires SortedDesc(s, key)
    ensures |r| == |s| + 1
    ensures multiset(r) == multiset(s) + multiset{x}
    ensures r[0] == x || (s != [] && r[0] == s[0])
    ensures SortedDesc(r, key)
  {
    if s == [] || key(x) >= key(s[0]) then [x] + s
    else
      var rest := InsertDesc(x, s[1..], key);
      InsertStep(x, s, rest, key);
      [s[0]] + rest
  }

  /** The head of s stays in front when x goes further down. */
  lemma InsertStep<T>(x: T, s: seq<T>, rest: seq<T>, key: T -> real)
    requires s != [] && SortedDesc(s, key) && key(x) < key(s[0])
    requires multiset(rest) == multiset(s[1..]) + multiset{x}
    requires rest != [] && (rest[0] == x || (|s| > 1 && rest[0] == s[1]))
    requires SortedDesc(rest, key)
    ensures multiset([s[0]] + rest) == multiset(s) + multiset{x}
    ensures SortedDesc([s[0]] + rest, key)
  {
    assert s == [s[0]] + s[1..];
    assert key(rest[0]) <= key(s[0]);
    ConsSorted(s[0], rest, key);
  }

  lemma ConsSorted<T>(a: T, s: seq<T>, key: T -> real)
    requires SortedDesc(s, key)
    requires s != [] ==> key(s[0]) <= key(a)
    ensures SortedDesc([a] + s, key)
  {
    var r := [a] + s;
    forall i, j | 0 <= i < j < |r|
      ensures key(r[i]) >= key(r[j])
    {
      if i == 0 && j > 1 {
        assert key(s[0]) >= key(s[j - 1]);
      }
    }
  }

  /**
   * `s.sort((a, b) => key(b) - key(a))`: the stable sort, largest key first
   * (elements with equal keys keep their input order).
   */
  function SortDesc<T>(s: seq<T>, key: T -> real): (r: seq<T>)
    ensures SortedDesc(r, key)
    ensures multiset(r) == multiset(s)
    ensures |r| == |s|
  {
    if s == [] then []
    else
      assert s == [s[0]] + s[1..];
      InsertDesc(s[0], SortDesc(s[1..], key), key)
  }

  /** `SortDesc(s, key).slice(0, n)` */
  function TopN<T>(s: seq<T>, key: T -> real, n: nat): seq<T>
  {
    var sorted := SortDesc(s, key);
    sorted[..Min(n, |sorted|)]
  }

  /**
   * The first n of the sorted list: min(n, |s|) elements drawn from s, in order,
   * and all of s when s has no more than n elements.
   */
  lemma TopNShape<T>(s: seq<T>, key: T -> real, n: nat)
    ensures |TopN(s, key, n)| == Min(n, |s|)
    ensures SortedDesc(TopN(s, key, n), key)
    ensures multiset(TopN(s, key, n)) <= multiset(s)
    ensures |s| <= n ==> TopN(s, key, n) == SortDesc(s, key)
  {
    var sorted := SortDesc(s, key);
    var k := Min(n, |sorted|);
    assert sorted == sorted[..k] + sorted[k..];
    assert multiset(sorted) == multiset(sorted[..k]) + multiset(sorted[k..]);
  }

  /** Nothing the first n leave behind is larger than the last one kept, and something is left behind only when n were kept. */
  lemma TopNLeftBehind<T>(s: seq<T>, key: T -> real, n: nat, x: T)
    requires x in multiset(s) - multiset(TopN(s, key, n))
    ensures |TopN(s, key, n)| == n
    ensures n > 0 ==> key(x) <= key(TopN(s, key, n)[n - 1])
  {
    var sorted := SortDesc(s, key);
    var k := Min(n, |sorted|);
    var j := DroppedIndex(sorted, k, x);
    if n > 0 {
      assert key(sorted[k - 1]) >= key(sorted[j]);
    }
  }

  /** Filtering a sequence with one more element in front. */
  lemma FilterCons<T(!new)>(x: T, s: seq<T>, p: T -> bool)
    ensures Filter([x] + s, p) == (if p(x) then [x] else []) + Filter(s, p)
  {
    FilterAppend([x], s, p);
    assert [x][..0] == [];
  }

  /**
   * Inserting x keeps the order within each key class: x goes in front of
   * the elements whose key equals its own.
   */
  lemma {:induction false} FilterInsertDesc<T(!new)>(x: T, s: seq<T>, key: T -> real, p: T -> bool, k: real)
    requires SortedDesc(s, key)
    requires forall y :: p(y) == (key(y) == k)
    ensures Filter(InsertDesc(x, s, key), p) == Filter([x] + s, p)
  {
    if s != [] && key(x) < key(s[0]) {
      var rest := InsertDesc(x, s[1..], key);
      assert InsertDesc(x, s, key) == [s[0]] + rest;
      assert s == [s[0]] + s[1..];
      FilterInsertDesc(x, s[1..], key, p, k);
      FilterCons(s[0], rest, p);
      FilterCons(x, s[1..], p);
      FilterCons(x, s, p);
      FilterCons(s[0], s[1..], p);
    }
  }

  /** The sort is stable: the elements of any one key keep their input order. */
  lemma {:induction false} SortDescStable<T(!new)>(s: seq<T>, key: T -> real, p: T -> bool, k: real)
    requires forall y :: p(y) == (key(y) == k)
    ensures Filter(SortDesc(s, key), p) == Filter(s, p)
  {
    if s != [] {
      SortDescStable(s[1..], key, p, k);
      FilterInsertDesc(s[0], SortDesc(s[1..], key), key, p, k);
      assert s == [s[0]] + s[1..];
      FilterCons(s[0], SortDesc(s[1..], key), p);
      FilterCons(s[0], s[1..], p);
    }
  }

  /** Sort-and-slice keeps, of each key, the first ones in input order. */
  lemma {:induction false} TopNStable<T(!new)>(s: seq<T>, key: T -> real, n: nat, p: T -> bool, k: real)
    requires forall y :: p(y) == (key(y) == k)
    ensures Filter(TopN(s, key, n), p) <= Filter(s, p)
  {
    var sorted := SortDesc(s, key);
    var m := Min(n, |sorted|);
    assert sorted == sorted[..m] + sorted[m..];
    FilterAppend(sorted[..m], sorted[m..], p);
    SortDescStable(s, key, p, k);
  }

  /** An element counted in s but not in its first k sits at some index from k on. */
  lemma DroppedIndex<T>(s: seq<T>, k: nat, x: T) returns (j: nat)
    requires k <= |s| && x in multiset(s) - multiset(s[..k])
    ensures k <= j < |s| && s[j] == x
  {
    var tail := s[k..];
    assert s == s[..k] + tail;
    assert multiset(s) == multiset(s[..k]) + multiset(tail);
    assert x in multiset(tail);
    assert x in tail;
    var i :| 0 <= i < |tail| && tail[i] == x;
    j := k + i;
  }

  // ---------------------------------------------------------------------------
  // Grouping by key

  /** One group of `d3.rollups(..., v => v.length, key)`: a key and its number of rows. */
  datatype Bucket = Bucket(key: int, count: nat)

  predicate StrictlyAscending(bs: seq<Bucket>)
  {
    forall i, j :: 0 <= i < j < |bs| ==> bs[i].key < bs[j].key
  }

  predicate NonEmptyGroups(bs: seq<Bucket>)
  {
    forall i :: 0 <= i < |bs| ==> bs[i].count > 0
  }

  /** The rows a list of groups stands for: each key repeated count times. */
  function Rows(bs: seq<Bucket>): multiset<int>
  {
    if bs == [] then multiset{} else multiset{}[bs[0].key := bs[0].count] + Rows(bs[1..])
  }

  function SumCounts(bs: seq<Bucket>): nat
  {
    if bs == [] then 0 else bs[0].count + SumCounts(bs[1..])
  }

  /** Count one more row with key k in an ascending list of groups. */
  function AddKey(bs: seq<Bucket>, k: int): (r: seq<Bucket>)
    ensures r != [] && (r[0].key == k || (bs != [] && r[0].key == bs[0].key))
  {
    if bs == [] || k < bs[0].key then [Bucket(k, 1)] + bs
    else if k == bs[0].key then [Bucket(k, bs[0].count + 1)] + bs[1..]
    else [bs[0]] + AddKey(bs[1..], k)
  }

  lemma {:induction false} AddKeyAscending(bs: seq<Bucket>, k: int)
    requires StrictlyAscending(bs)
    ensures StrictlyAscending(AddKey(bs, k))
    ensures NonEmptyGroups(bs) ==> NonEmptyGroups(AddKey(bs, k))
  {
    if bs == [] || k < bs[0].key {
      ConsGroup(Bucket(k, 1), bs);
    } else if k == bs[0].key {
      ConsGroup(Bucket(k, bs[0].count + 1), bs[1..]);
    } else {
      AddKeyAscending(bs[1..], k);
      ConsGroup(bs[0], AddKey(bs[1..], k));
    }
  }

  lemma {:induction false} AddKeyRows(bs: seq<Bucket>, k: int)
    ensures Rows(AddKey(bs, k)) == Rows(bs) + multiset{k}
  {
    if bs == [] || k < bs[0].key {
      assert (AddKey(bs, k))[1..] == bs;
      assert multiset{}[k := 1] == multiset{k};
    } else if k == bs[0].key {
      assert (AddKey(bs, k))[1..] == bs[1..];
      assert multiset{}[k := bs[0].count + 1] == multiset{}[k := bs[0].count] + multiset{k};
    } else {
      AddKeyRows(bs[1..], k);
      assert (AddKey(bs, k))[1..] == AddKey(bs[1..], k);
    }
  }

  lemma ConsGroup(b: Bucket, bs: seq<Bucket>)
    requires StrictlyAscending(bs)
    ensures bs != [] && b.key < bs[0].key ==> StrictlyAscending([b] + bs)
    ensures b.count > 0 && NonEmptyGroups(bs) ==> NonEmptyGroups([b] + bs)
  {
    assert ([b] + bs)[1..] == bs;
  }

  /**
   * `d3.rollups(keys, v => v.length, id)` followed by a sort on the key, ascending.
   * The keys of the groups are distinct, so the sorted list does not depend on the
   * order in which the groups were first met; it is built here by counting each row
   * into its place.
   */
  function CountByKey(keys: seq<int>): (r: seq<Bucket>)
    ensures StrictlyAscending(r)
    ensures NonEmptyGroups(r)
    ensures Rows(r) == multiset(keys)
  {
    if keys == [] then []
    else
      var init := keys[..|keys| - 1];
      var last := keys[|keys| - 1];
      assert keys == init + [last];
      var bs := CountByKey(init);
      AddKeyAscending(bs, last);
      AddKeyRows(bs, last);
      AddKey(bs, last)
  }

  /** In ascending groups, a group's count is the number of rows with its key. */
  lemma {:induction false} RowsLookup(bs: seq<Bucket>, i: int)
    requires StrictlyAscending(bs) && 0 <= i < |bs|
    ensures Rows(bs)[bs[i].key] == bs[i].count
  {
    if i == 0 {
      RowsAbsent(bs[1..], bs[0].key);
    } else {
      RowsLookup(bs[1..], i - 1);
    }
  }

  lemma {:induction false} RowsAbsent(bs: seq<Bucket>, k: int)
    requires forall i :: 0 <= i < |bs| ==> bs[i].key != k
    ensures Rows(bs)[k] == 0
  {
    if bs != [] {
      RowsAbsent(bs[1..], k);
    }
  }

  /** Every key with rows has a group. */
  lemma {:induction false} RowsHaveGroup(bs: seq<Bucket>, k: int)
    requires k in Rows(bs)
    ensures exists i :: 0 <= i < |bs| && bs[i].key == k
  {
    if bs[0].key != k {
      RowsHaveGroup(bs[1..], k);
      var i :| 0 <= i < |bs[1..]| && bs[1..][i].key == k;
      assert bs[i + 1].key == k;
    }
  }

  lemma {:induction false} SumCountsIsRows(bs: seq<Bucket>)
    ensures SumCounts(bs) == |Rows(bs)|
  {
    if bs != [] {
      SumCountsIsRows(bs[1..]);
    }
  }

  /**
   * The groups are the distinct keys, oldest first, each counting exactly the rows
   * with that key, and the counts add up to the number of rows.
   */
  lemma CountByKeyCounts(keys: seq<int>)
    ensures SumCounts(CountByKey(keys)) == |keys|
    ensures forall i :: 0 <= i < |CountByKey(keys)| ==>
      CountByKey(keys)[i].count == multiset(keys)[CountByKey(keys)[i].key] > 0
    ensures forall k :: k in keys ==> exists i :: 0 <= i < |CountByKey(keys)| && CountByKey(keys)[i].key == k
  {
    var bs := CountByKey(keys);
    SumCountsIsRows(bs);
    forall i | 0 <= i < |bs|
      ensures bs[i].count == multiset(keys)[bs[i].key]
    {
      RowsLookup(bs, i);
    }
    forall k | k in keys
      ensures exists i :: 0 <= i < |bs| && bs[i].key == k
    {
      assert k in multiset(keys);
      RowsHaveGroup(bs, k);
    }
  }
}
