/**
 * The coarse release timeline at the top of the page: release counts per
 * bucket, a brush that announces the selected date range (`filterTime`), a
 * default one-year brush at the right end, and a walkthrough that slides a
 * one-year window forward a week at a time.
 *
 * Pixels and dates are identified (the time scale is a monotone bijection),
 * so brush selections are given as date ranges; the left pixel clamp at 0 is
 * the clamp at the start of the domain.
 */
module TimelineTop {
  import opened Games

  /** The class field `startYear`. */
  const DefaultStartYear: int := 2006
  /** `vis.startYear || 2005` */
  const FallbackStartYear: int := 2005
  /** Spans (in days) above which yearly, then monthly buckets are used. */
  const YearlyAbove: real := 730.0
  const MonthlyAbove: real := 60.0
  /** The walkthrough step. */
  const StepDays: int := 7
  const StepMs: int := StepDays * MsPerDay

  datatype Granularity = Yearly | Monthly | Daily

  /** The field `oldrange`: "some" once a range was chosen, "all" for the full view. */
  datatype OldRange = SomeRange | AllRange

  // ---------------------------------------------------------------------------
  // Buckets

  /**
   * The bucket size for the global time range: with two entries, yearly above
   * 730 days, monthly above 60, daily otherwise (a NaN span, from an invalid
   * date, fails both tests); with any other length, monthly.
   */
  function GranularityOf(timeRange: seq<Instant>): Granularity
  {
    if |timeRange| != 2 then Monthly
    else if !(timeRange[0].At? && timeRange[1].At?) then Daily
    else
      var span := SpanDays(timeRange[0].ms, timeRange[1].ms);
      if span > YearlyAbove then Yearly
      else if span > MonthlyAbove then Monthly
      else Daily
  }

  /** The rank of a granularity, from the finest (daily) to the coarsest (yearly). */
  function Coarseness(g: Granularity): (n: nat)
    ensures (g == Daily <==> n == 0) && (g == Monthly <==> n == 1) && (g == Yearly <==> n == 2)
  {
    match g
    case Daily => 0
    case Monthly => 1
    case Yearly => 2
  }

  /**
   * A wider valid range never gets finer buckets, and the thresholds are
   * exactly 730 and 60 days.
   */
  lemma GranularityMonotone(a0: int, a1: int, b0: int, b1: int)
    requires a1 - a0 <= b1 - b0
    ensures Coarseness(GranularityOf([At(a0), At(a1)])) <= Coarseness(GranularityOf([At(b0), At(b1)]))
    ensures GranularityOf([At(a0), At(a1)]) == Yearly <==> SpanDays(a0, a1) > YearlyAbove
    ensures GranularityOf([At(a0), At(a1)]) == Daily <==> SpanDays(a0, a1) <= MonthlyAbove
  {
    SpanMonotone(a0, a1, b0, b1);
  }

  lemma SpanMonotone(a0: int, a1: int, b0: int, b1: int)
    requires a1 - a0 <= b1 - b0
    ensures SpanDays(a0, a1) <= SpanDays(b0, b1)
  {
    var d := MsPerDay as real;
    assert (a1 - a0) as real <= (b1 - b0) as real;
    assert (a1 - a0) as real / d <= (b1 - b0) as real / d;
  }

  function Buckets(p: Precomputed, g: Granularity): seq<Sample>
  {
    match g
    case Yearly => p.yearly
    case Monthly => p.monthly
    case Daily => p.daily
  }

  predicate InWindow(s: Sample, timeRange: seq<Instant>)
    requires |timeRange| == 2
  {
    InRange(At(s.t), timeRange[0], timeRange[1])
  }

  function ToSample(b: Bucket): Sample
  {
    Sample(b.key, b.count)
  }

  /** `d3.rollups(data, v => v.length, d => d.ReleaseDate.getTime())`, sorted by time. */
  function FallbackBuckets(data: seq<Game>): seq<Sample>
  {
    Map(CountByKey(ReleaseTimes(data)), ToSample)
  }

  /** The fallback buckets are ascending, distinct, and count every dated record once. */
  lemma FallbackBucketsCount(data: seq<Game>)
    ensures var r := FallbackBuckets(data);
      && (forall i, j :: 0 <= i < j < |r| ==> r[i].t < r[j].t)
      && (forall i :: 0 <= i < |r| ==> r[i].count > 0)
      && SumSamples(r) == |ReleaseTimes(data)|
  {
    var bs := CountByKey(ReleaseTimes(data));
    CountByKeyCounts(ReleaseTimes(data));
    SumSamplesMap(bs);
  }

  function SumSamples(s: seq<Sample>): int
  {
    if s == [] then 0 else s[0].count + SumSamples(s[1..])
  }

  lemma {:induction false} SumSamplesMap(bs: seq<Bucket>)
    ensures SumSamples(Map(bs, ToSample)) == SumCounts(bs)
  {
    if bs != [] {
      SumSamplesMap(bs[1..]);
      assert Map(bs, ToSample)[1..] == Map(bs[1..], ToSample);
    }
  }

  /**
   * The buckets `updateVis` assigns to `groupedData` before the start-year cut;
   * None when it returns before assigning (no precomputed data and no records).
   */
  function Grouped(pre: Option<Precomputed>, timeRange: seq<Instant>, data: seq<Game>): Option<seq<Sample>>
  {
    if pre.Some? then
      if |timeRange| == 2 then
        Some(Filter(Buckets(pre.value, GranularityOf(timeRange)), (s: Sample) => InWindow(s, timeRange)))
      else Some(pre.value.monthly)
    else if data == [] then None
    else Some(FallbackBuckets(data))
  }

  /** `new Date(vis.startYear || 2005, 0, 1)` */
  function MinDate(startYear: int): int
  {
    YearStart(if startYear != 0 then startYear else FallbackStartYear)
  }

  function AfterStart(grouped: seq<Sample>, startYear: int): seq<Sample>
  {
    Filter(grouped, (s: Sample) => s.t >= MinDate(startYear))
  }

  /**
   * With precomputed data and a two-entry range, a bucket is shown exactly when
   * it is a bucket of the chosen size, lies in the range (both ends included)
   * and starts no earlier than January 1st of the start year.
   */
  lemma ShownBuckets(p: Precomputed, timeRange: seq<Instant>, startYear: int, s: Sample)
    requires |timeRange| == 2
    ensures var g := Grouped(Some(p), timeRange, []).value;
      s in AfterStart(g, startYear) <==>
        && s in Buckets(p, GranularityOf(timeRange))
        && AtOrBefore(timeRange[0], At(s.t)) && AtOrBefore(At(s.t), timeRange[1])
        && s.t >= MinDate(startYear)
  {
  }

  /** Without a two-entry range the monthly buckets from the start year on are shown. */
  lemma ShownBucketsFullView(p: Precomputed, timeRange: seq<Instant>, startYear: int, s: Sample)
    requires |timeRange| != 2
    ensures s in AfterStart(Grouped(Some(p), timeRange, []).value, startYear) <==>
      s in p.monthly && s.t >= MinDate(startYear)
  {
  }

  // ---------------------------------------------------------------------------
  // Extent and the default window

  function SampleTime(s: Sample): int
  {
    s.t
  }

  /**
   * The default brush: from one year before the end of the domain, but not
   * before its start, to the end of the domain.
   */
  function DefaultWindow(domain: Range): (r: Range)
    requires domain.start.At? && domain.end.At? && domain.start.ms <= domain.end.ms
    ensures r.start.At? && r.end == domain.end
    ensures domain.start.ms <= r.start.ms <= r.end.ms
    ensures r.end.ms - r.start.ms <= AddYears(0, 1)
    ensures domain.end.ms - domain.start.ms >= AddYears(0, 1) ==> r.start.ms == AddYears(domain.end.ms, -1)
  {
    var lastYear := AddYears(domain.end.ms, -1);
    Range(At(if lastYear >= domain.start.ms then lastYear else domain.start.ms), domain.end)
  }

  /** Where the walkthrough window starts: January 1st of the start year, or the domain start when later. */
  function WalkStart(startYear: int, domain: Range): (t: int)
    ensures t >= YearStart(startYear)
    ensures domain.start.At? ==> t >= domain.start.ms
    ensures t == YearStart(startYear) || (domain.start.At? && t == domain.start.ms)
  {
    var first := YearStart(startYear);
    if domain.start.At? && first < domain.start.ms then domain.start.ms else first
  }

  // ---------------------------------------------------------------------------
  // The view

  /** Everything the view holds apart from its records. */
  datatype ViewState = ViewState(
    startYear: int, updates: bool, isApplyingDefaultBrush: bool, isWalkthroughActive: bool,
    oldrange: OldRange, walkthroughInterval: Option<nat>, liveIntervals: set<nat>, nextTimerId: nat,
    groupedData: Option<seq<Sample>>, domain: Range, brushSelection: Option<Range>,
    windowStart: int, windowEnd: int, walkEnd: Instant, pendingDefault: Option<Range>, pendingReapply: nat)

  /** The state the constructor sets up before its first `updateVis`. */
  function InitialState(): ViewState
  {
    ViewState(DefaultStartYear, true, false, false, AllRange, None, {}, 1,
      None, DefaultTimeDomain(), None, 0, 0, InvalidDate, None, 0)
  }

  /** The domain is the extent of the buckets whenever there are buckets. */
  predicate DomainFits(st: ViewState)
  {
    st.groupedData.Some? && st.groupedData.value != [] ==> st.domain == Extent(st.groupedData.value, SampleTime)
  }

  /** A default-brush timeout is pending exactly while one is being applied, and the domain fits. */
  predicate Consistent(st: ViewState)
  {
    (st.isApplyingDefaultBrush <==> st.pendingDefault.Some?) && DomainFits(st)
  }

  /**
   * What `renderVis` leaves: when no range has been chosen, no default brush
   * is under way and there are buckets, the default window is brushed and its
   * announcement pending; updates are on again either way.
   */
  function Rendered(st: ViewState): ViewState
    requires DomainFits(st)
  {
    if st.oldrange == AllRange && !st.isApplyingDefaultBrush && st.groupedData.Some? && st.groupedData.value != [] then
      var window := DefaultWindow(st.domain);
      st.(updates := true, isApplyingDefaultBrush := true, pendingDefault := Some(window), brushSelection := Some(window))
    else st.(updates := true)
  }

  /**
   * What `updateVis` leaves, from the state before and the grouped counts:
   * nothing changes while updates are paused or without counts; with none
   * only the buckets are emptied; otherwise the buckets from the start year
   * on become the chart, their extent the domain, and the chart is rendered.
   */
  function Redrawn(st: ViewState, grouped: Option<seq<Sample>>): ViewState
  {
    if !st.updates || grouped.None? then st
    else if grouped.value == [] then st.(groupedData := Some([]))
    else
      var shown := AfterStart(grouped.value, st.startYear);
      Rendered(st.(groupedData := Some(shown), domain := Extent(shown, SampleTime)))
  }

  /** A redraw keeps the view consistent and touches neither the chosen range nor the walkthrough. */
  lemma RedrawnConsistent(st: ViewState, grouped: Option<seq<Sample>>)
    requires Consistent(st)
    ensures var r := Redrawn(st, grouped);
      && Consistent(r)
      && r.updates == st.updates && r.oldrange == st.oldrange && r.pendingReapply == st.pendingReapply
      && r.startYear == st.startYear
      && r.isWalkthroughActive == st.isWalkthroughActive && r.walkthroughInterval == st.walkthroughInterval
      && r.liveIntervals == st.liveIntervals && r.nextTimerId == st.nextTimerId
      && r.windowStart == st.windowStart && r.windowEnd == st.windowEnd && r.walkEnd == st.walkEnd
  {
  }

  /**
   * With no range chosen, a redraw that shows buckets leaves a default brush
   * pending: the one already under way, or else the default window of the
   * new domain.
   */
  lemma RedrawnSchedulesDefault(st: ViewState, grouped: Option<seq<Sample>>)
    requires Consistent(st) && st.updates && st.oldrange == AllRange
    requires grouped.Some? && AfterStart(grouped.value, st.startYear) != []
    ensures var r := Redrawn(st, grouped);
      && r.domain == Extent(AfterStart(grouped.value, st.startYear), SampleTime)
      && r.isApplyingDefaultBrush && r.pendingDefault.Some?
      && (st.isApplyingDefaultBrush ==> r.pendingDefault == st.pendingDefault)
      && (!st.isApplyingDefaultBrush ==> r.pendingDefault == Some(DefaultWindow(r.domain)) && r.brushSelection == r.pendingDefault)
  {
  }

  /** A range the user chose survives a redraw: the brush and any pending default stay. */
  lemma RedrawnKeepsChosenRange(st: ViewState, grouped: Option<seq<Sample>>)
    requires st.oldrange == SomeRange
    ensures var r := Redrawn(st, grouped);
      r.brushSelection == st.brushSelection && r.pendingDefault == st.pendingDefault
      && r.isApplyingDefaultBrush == st.isApplyingDefaultBrush
  {
  }

  /** Redrawing twice with the same counts is redrawing once. */
  lemma RedrawnTwice(st: ViewState, grouped: Option<seq<Sample>>)
    ensures Redrawn(Redrawn(st, grouped), grouped) == Redrawn(st, grouped)
  {
  }

  class TimelineTopView {
    var data: seq<Game>
    var startYear: int
    var updates: bool
    var isApplyingDefaultBrush: bool
    var isWalkthroughActive: bool
    var oldrange: OldRange
    var walkthroughInterval: Option<nat>
    /** The intervals armed and not cleared. */
    var liveIntervals: set<nat>
    var nextTimerId: nat
    /** None while `groupedData` is undefined. */
    var groupedData: Option<seq<Sample>>
    /** `xScaleContext.domain()` */
    var domain: Range
    /** The brush selection last set by the view itself. */
    var brushSelection: Option<Range>
    /** The walkthrough window and the domain end captured when it started. */
    var windowStart: int
    var windowEnd: int
    var walkEnd: Instant
    /** The range the pending default-brush timeout will announce. */
    var pendingDefault: Option<Range>
    /** Re-apply timeouts scheduled after the user cleared the brush. */
    var pendingReapply: nat

    /**
     * One walkthrough interval exactly while the walkthrough is active; a
     * default-brush timeout exactly while one is being applied; the domain is
     * the extent of the buckets whenever there are buckets.
     */
    predicate Valid()
      reads this`nextTimerId, this`isWalkthroughActive, this`walkthroughInterval, this`liveIntervals
      reads this`windowStart, this`windowEnd, this`isApplyingDefaultBrush, this`pendingDefault
      reads this`groupedData, this`domain
    {
      TimersValid() && BrushValid() && DomainValid()
    }

    function State(): (st: ViewState)
      reads this`startYear, this`updates, this`isApplyingDefaultBrush, this`isWalkthroughActive
      reads this`oldrange, this`walkthroughInterval, this`liveIntervals, this`nextTimerId
      reads this`groupedData, this`domain, this`brushSelection, this`windowStart, this`windowEnd
      reads this`walkEnd, this`pendingDefault, this`pendingReapply
    {
      ViewState(startYear, updates, isApplyingDefaultBrush, isWalkthroughActive,
        oldrange, walkthroughInterval, liveIntervals, nextTimerId,
        groupedData, domain, brushSelection, windowStart, windowEnd, walkEnd, pendingDefault, pendingReapply)
    }

    predicate TimersValid()
      reads this`nextTimerId, this`isWalkthroughActive, this`walkthroughInterval, this`liveIntervals
      reads this`windowStart, this`windowEnd
    {
      && nextTimerId > 0
      && (isWalkthroughActive <==> walkthroughInterval.Some?)
      && liveIntervals == (if walkthroughInterval.Some? then {walkthroughInterval.value} else {})
      && (walkthroughInterval.Some? ==> 0 < walkthroughInterval.value < nextTimerId)
      && (isWalkthroughActive ==> windowEnd == AddYears(windowStart, 1))
    }

    predicate BrushValid()
      reads this`isApplyingDefaultBrush, this`pendingDefault
    {
      isApplyingDefaultBrush <==> pendingDefault.Some?
    }

    predicate DomainValid()
      reads this`groupedData, this`domain
    {
      groupedData.Some? && groupedData.value != [] ==> domain == Extent(groupedData.value, SampleTime)
    }

    constructor (data: seq<Game>, pre: Option<Precomputed>, timeRange: seq<Instant>)
      ensures Valid()
      ensures this.data == data && State() == Redrawn(InitialState(), Grouped(pre, timeRange, data))
      ensures startYear == DefaultStartYear && updates && !isWalkthroughActive && oldrange == AllRange
    {
      this.data := data;
      startYear := DefaultStartYear;
      updates := true;
      isApplyingDefaultBrush := false;
      isWalkthroughActive := false;
      oldrange := AllRange;
      walkthroughInterval := None;
      liveIntervals := {};
      nextTimerId := 1;
      groupedData := None;
      domain := DefaultTimeDomain();
      brushSelection := None;
      windowStart, windowEnd, walkEnd := 0, 0, InvalidDate;
      pendingDefault := None;
      pendingReapply := 0;
      new;
      UpdateVis(pre, timeRange);
      RedrawnConsistent(InitialState(), Grouped(pre, timeRange, data));
    }

    method PauseUpdates()
      modifies this`updates
      ensures !updates
    {
      updates := false;
    }

    method ResumeUpdates()
      modifies this`updates
      ensures updates
    {
      updates := true;
    }

    /**
     * Recompute the buckets from the precomputed lists (or, without them, from
     * the records) and redraw. Nothing happens while updates are paused; with
     * no records and no precomputed lists nothing changes; with no buckets
     * only `groupedData` is emptied.
     */
    method UpdateVis(pre: Option<Precomputed>, timeRange: seq<Instant>)
      requires Valid()
      modifies this`groupedData, this`domain, this`updates, this`isApplyingDefaultBrush
      modifies this`pendingDefault, this`brushSelection, this`oldrange, this`pendingReapply
      ensures Valid()
      ensures State() == Redrawn(old(State()), Grouped(pre, timeRange, data))
    {
      if !updates {
        return;
      }
      ShowGrouped(Grouped(pre, timeRange, data));
    }

    /** Draw the grouped counts: nothing without any, an empty chart for none, else the buckets. */
    method ShowGrouped(grouped: Option<seq<Sample>>)
      requires Valid() && updates
      modifies this`groupedData, this`domain, this`updates, this`isApplyingDefaultBrush
      modifies this`pendingDefault, this`brushSelection, this`oldrange, this`pendingReapply
      ensures Valid()
      ensures State() == Redrawn(old(State()), grouped)
    {
      if grouped.None? {
        return;
      }
      if grouped.value == [] {
        groupedData := grouped;
        return;
      }
      ShowBuckets(AfterStart(grouped.value, startYear));
    }

    /** Keep the buckets from the start year on, take their extent as the domain and redraw. */
    method ShowBuckets(shown: seq<Sample>)
      requires Valid()
      modifies this`groupedData, this`domain, this`updates, this`isApplyingDefaultBrush
      modifies this`pendingDefault, this`brushSelection, this`oldrange, this`pendingReapply
      ensures Valid()
      ensures State() == Rendered(old(State()).(groupedData := Some(shown), domain := Extent(shown, SampleTime)))
    {
      groupedData := Some(shown);
      domain := Extent(shown, SampleTime);
      RenderVis();
    }

    /**
     * Pause updates, apply the default brush when no range was chosen, resume.
     */
    method RenderVis()
      requires Valid()
      modifies this`updates, this`isApplyingDefaultBrush, this`pendingDefault, this`brushSelection
      modifies this`oldrange, this`pendingReapply
      ensures Valid()
      ensures State() == Rendered(old(State()))
    {
      PauseUpdates();
      if oldrange == AllRange {
        ApplyDefaultBrush();
      }
      ResumeUpdates();
    }

    /**
     * Move the brush to the default window with updates paused and schedule the
     * timeout that announces it. Returns at once while a default brush is being
     * applied; with no buckets only clears the flag it just set.
     */
    method ApplyDefaultBrush()
      requires Valid()
      modifies this`updates, this`isApplyingDefaultBrush, this`pendingDefault, this`brushSelection
      modifies this`oldrange, this`pendingReapply
      ensures Valid()
      ensures oldrange == old(oldrange) && pendingReapply == old(pendingReapply)
      ensures old(isApplyingDefaultBrush) ==> unchanged(this)
      ensures !old(isApplyingDefaultBrush) && (groupedData.None? || groupedData.value == []) ==> unchanged(this)
      ensures !old(isApplyingDefaultBrush) && groupedData.Some? && groupedData.value != [] ==>
        && isApplyingDefaultBrush && !updates
        && pendingDefault == Some(DefaultWindow(domain))
        && brushSelection == pendingDefault
    {
      if isApplyingDefaultBrush {
        return;
      }
      isApplyingDefaultBrush := true;
      if groupedData.None? || groupedData.value == [] {
        isApplyingDefaultBrush := false;
        return;
      }
      BrushDefaultWindow();
    }

    /** With updates paused, move the brush to the default window and schedule its announcement. */
    method BrushDefaultWindow()
      requires TimersValid() && DomainValid() && isApplyingDefaultBrush
      requires groupedData.Some? && groupedData.value != []
      modifies this`updates, this`pendingDefault, this`brushSelection, this`oldrange, this`pendingReapply
      ensures Valid() && !updates
      ensures oldrange == old(oldrange) && pendingReapply == old(pendingReapply)
      ensures pendingDefault == Some(DefaultWindow(domain)) && brushSelection == pendingDefault
    {
      var window := DefaultWindow(domain);
      PauseUpdates();
      MoveBrush(window);
      pendingDefault := Some(window);
    }

    /**
     * `brush.move`: the brush fires its start, brush and end events with the new
     * selection; while updates are paused or a default brush is being applied
     * the handlers drop all three, so nothing is announced.
     */
    method MoveBrush(selection: Range)
      requires !updates || isApplyingDefaultBrush
      modifies this`brushSelection, this`oldrange, this`pendingReapply
      ensures brushSelection == Some(selection)
      ensures oldrange == old(oldrange) && pendingReapply == old(pendingReapply)
    {
      brushSelection := Some(selection);
      var started := OnBrush(Some(selection));
      var moved := OnBrush(Some(selection));
      var ended := OnBrushEnd(Some(selection), false);
      assert started == None && moved == None && ended == None;
    }

    /** The "start brush" handler: announces a selection unless suppressed. */
    method OnBrush(selection: Option<Range>) returns (emitted: Option<Range>)
      modifies this`oldrange
      ensures isApplyingDefaultBrush || !updates ==> emitted == None && oldrange == old(oldrange)
      ensures !isApplyingDefaultBrush && updates && selection.Some? ==> emitted == selection && oldrange == SomeRange
      ensures selection.None? ==> emitted == None && oldrange == old(oldrange)
    {
      emitted := None;
      if isApplyingDefaultBrush || !updates {
        return;
      }
      if selection.Some? {
        oldrange := SomeRange;
        emitted := selection;
      }
    }

    /**
     * The "end" handler: a selection is announced as in `OnBrush`; a clear by
     * the user announces the full extent, goes back to "all" and schedules a
     * re-apply of the default brush. Before any buckets exist the extent
     * throws and nothing happens.
     */
    method OnBrushEnd(selection: Option<Range>, fromUser: bool) returns (emitted: Option<Range>)
      modifies this`oldrange, this`pendingReapply
      ensures isApplyingDefaultBrush || !updates ==> emitted == None && unchanged(this)
      ensures !isApplyingDefaultBrush && updates && selection.Some? ==>
        emitted == selection && oldrange == SomeRange && pendingReapply == old(pendingReapply)
      ensures !isApplyingDefaultBrush && updates && selection.None? && fromUser && groupedData.Some? ==>
        && emitted == Some(Extent(groupedData.value, SampleTime)) && oldrange == AllRange
        && pendingReapply == old(pendingReapply) + 1
      ensures selection.None? && (!fromUser || groupedData.None?) ==> emitted == None && unchanged(this)
    {
      emitted := None;
      if isApplyingDefaultBrush || !updates {
        return;
      }
      if selection.Some? {
        oldrange := SomeRange;
        emitted := selection;
      } else if fromUser && groupedData.Some? {
        oldrange := AllRange;
        emitted := Some(Extent(groupedData.value, SampleTime));
        pendingReapply := pendingReapply + 1;
      }
    }

    /** The 100 ms timeout after a clear: re-apply the default brush if nothing else is under way. */
    method ReapplyTimer()
      requires Valid() && pendingReapply > 0
      modifies this`updates, this`isApplyingDefaultBrush, this`pendingDefault, this`brushSelection
      modifies this`oldrange, this`pendingReapply
      ensures Valid() && pendingReapply == old(pendingReapply) - 1
      ensures (!old(updates) || old(isApplyingDefaultBrush)) ==> pendingDefault == old(pendingDefault)
      ensures old(updates) && !old(isApplyingDefaultBrush) && groupedData.Some? && groupedData.value != [] ==>
        pendingDefault == Some(DefaultWindow(domain))
    {
      pendingReapply := pendingReapply - 1;
      if updates && !isApplyingDefaultBrush {
        ApplyDefaultBrush();
      }
    }

    /** The 50 ms timeout of the default brush: resume, clear the flag and announce the window. */
    method DefaultBrushTimer() returns (emitted: Range)
      requires Valid() && pendingDefault.Some?
      modifies this`updates, this`isApplyingDefaultBrush, this`pendingDefault
      ensures Valid()
      ensures emitted == old(pendingDefault.value)
      ensures updates && !isApplyingDefaultBrush && pendingDefault == None
    {
      updates := true;
      isApplyingDefaultBrush := false;
      emitted := pendingDefault.value;
      pendingDefault := None;
    }

    /** The walkthrough button. */
    method ToggleWalkthrough() returns (emitted: Option<Range>)
      requires Valid()
      modifies this`isWalkthroughActive, this`walkthroughInterval, this`liveIntervals, this`nextTimerId
      modifies this`windowStart, this`windowEnd, this`walkEnd, this`updates, this`brushSelection
      modifies this`oldrange, this`pendingReapply
      ensures Valid()
      ensures isWalkthroughActive == !old(isWalkthroughActive)
      ensures old(isWalkthroughActive) ==> emitted == None && liveIntervals == {}
      ensures !old(isWalkthroughActive) ==> emitted == Some(Range(At(windowStart), At(windowEnd)))
    {
      if isWalkthroughActive {
        StopWalkthrough();
        emitted := None;
      } else {
        emitted := StartWalkthrough();
      }
    }

    /**
     * Start the walkthrough: a one-year window from January 1st of the start
     * year (or from the domain start when that is later) is brushed with
     * updates paused, announced, and an interval armed. A no-op when active.
     */
    method StartWalkthrough() returns (emitted: Option<Range>)
      requires Valid()
      modifies this`isWalkthroughActive, this`walkthroughInterval, this`liveIntervals, this`nextTimerId
      modifies this`windowStart, this`windowEnd, this`walkEnd, this`updates, this`brushSelection
      modifies this`oldrange, this`pendingReapply
      ensures Valid()
      ensures old(isWalkthroughActive) ==> emitted == None && unchanged(this)
      ensures !old(isWalkthroughActive) ==>
        && isWalkthroughActive && walkthroughInterval == Some(old(nextTimerId))
        && windowStart == WalkStart(startYear, domain) && windowEnd == AddYears(windowStart, 1)
        && walkEnd == domain.end
        && oldrange == SomeRange && updates
        && emitted == Some(Range(At(windowStart), At(windowEnd)))
    {
      if isWalkthroughActive {
        return None;
      }
      emitted := BeginWalkthrough();
    }

    method BeginWalkthrough() returns (emitted: Option<Range>)
      requires Valid() && !isWalkthroughActive
      modifies this`isWalkthroughActive, this`walkthroughInterval, this`liveIntervals, this`nextTimerId
      modifies this`windowStart, this`windowEnd, this`walkEnd, this`updates, this`brushSelection
      modifies this`oldrange, this`pendingReapply
      ensures Valid()
      ensures isWalkthroughActive && walkthroughInterval == Some(old(nextTimerId))
      ensures windowStart == WalkStart(startYear, domain) && windowEnd == AddYears(windowStart, 1)
      ensures walkEnd == domain.end
      ensures oldrange == SomeRange && updates
      ensures emitted == Some(Range(At(windowStart), At(windowEnd)))
    {
      var timeExtent := domain;
      var start := WalkStart(startYear, timeExtent);
      var end := AddYears(start, 1);
      emitted := BrushWindow(start, end);
      ArmWalkthrough(start, end, timeExtent.end);
    }

    /** Brush a walkthrough window with updates paused and announce it. */
    method BrushWindow(start: int, end: int) returns (emitted: Option<Range>)
      modifies this`updates, this`brushSelection, this`oldrange, this`pendingReapply
      ensures !updates && oldrange == SomeRange && pendingReapply == old(pendingReapply)
      ensures brushSelection == Some(Range(At(start), At(end)))
      ensures emitted == Some(Range(At(start), At(end)))
    {
      PauseUpdates();
      MoveBrush(Range(At(start), At(end)));
      oldrange := SomeRange;
      emitted := Some(Range(At(start), At(end)));
    }

    /** Record the window, arm the walkthrough interval and resume updates. */
    method ArmWalkthrough(start: int, end: int, extentEnd: Instant)
      requires TimersValid() && !isWalkthroughActive && end == AddYears(start, 1)
      modifies this`isWalkthroughActive, this`walkthroughInterval, this`liveIntervals, this`nextTimerId
      modifies this`windowStart, this`windowEnd, this`walkEnd, this`updates
      ensures TimersValid() && updates
      ensures isWalkthroughActive && walkthroughInterval == Some(old(nextTimerId))
      ensures windowStart == start && windowEnd == end && walkEnd == extentEnd
    {
      isWalkthroughActive := true;
      walkthroughInterval := Some(nextTimerId);
      liveIntervals := {nextTimerId};
      nextTimerId := nextTimerId + 1;
      windowStart, windowEnd, walkEnd := start, end, extentEnd;
      ResumeUpdates();
    }

    /** Stop the walkthrough and clear its interval; a no-op when inactive. */
    method StopWalkthrough()
      requires Valid()
      modifies this`isWalkthroughActive, this`walkthroughInterval, this`liveIntervals
      ensures Valid()
      ensures !isWalkthroughActive && walkthroughInterval == None && liveIntervals == {}
      ensures !old(isWalkthroughActive) ==> unchanged(this)
    {
      if !isWalkthroughActive {
        return;
      }
      isWalkthroughActive := false;
      if walkthroughInterval.Some? {
        liveIntervals := liveIntervals - {walkthroughInterval.value};
        walkthroughInterval := None;
      }
    }

    /** Ticks left before the walkthrough stops, when the captured domain end is a date. */
    function TicksLeft(): nat
      reads this`isWalkthroughActive, this`windowEnd, this`walkEnd
    {
      if !isWalkthroughActive || walkEnd.InvalidDate? then 0
      else if windowEnd <= walkEnd.ms then (walkEnd.ms - windowEnd) / StepMs + 2
      else 1
    }

    /**
     * One firing of the walkthrough interval: the window moves 7 days forward
     * and keeps one year's length; once its end passes the captured domain end
     * the walkthrough stops without announcing anything.
     */
    method WalkTick(interval: nat) returns (emitted: Option<Range>)
      requires Valid() && interval in liveIntervals
      modifies this`isWalkthroughActive, this`walkthroughInterval, this`liveIntervals
      modifies this`windowStart, this`windowEnd, this`updates, this`brushSelection
      modifies this`oldrange, this`pendingReapply
      ensures Valid()
      ensures windowStart == AddDays(old(windowStart), StepDays) && windowEnd == AddYears(windowStart, 1)
      ensures walkEnd.At? && windowEnd > walkEnd.ms ==> emitted == None && !isWalkthroughActive && liveIntervals == {}
      ensures !(walkEnd.At? && windowEnd > walkEnd.ms) ==>
        && emitted == Some(Range(At(windowStart), At(windowEnd)))
        && isWalkthroughActive && oldrange == SomeRange && updates
      ensures walkEnd.At? ==> TicksLeft() < old(TicksLeft())
    {
      var start := AddDays(windowStart, StepDays);
      var end := AddYears(start, 1);
      if walkEnd.At? && end > walkEnd.ms {
        windowStart, windowEnd := start, end;
        StopWalkthrough();
        return None;
      }
      emitted := StepWindow(start, end);
    }

    /** Move the walkthrough window, brush and announce it, and resume updates. */
    method StepWindow(start: int, end: int) returns (emitted: Option<Range>)
      requires TimersValid() && isWalkthroughActive && end == AddYears(start, 1)
      modifies this`windowStart, this`windowEnd, this`updates, this`brushSelection
      modifies this`oldrange, this`pendingReapply
      ensures TimersValid() && updates && oldrange == SomeRange
      ensures windowStart == start && windowEnd == end
      ensures emitted == Some(Range(At(start), At(end)))
    {
      windowStart, windowEnd := start, end;
      emitted := BrushWindow(start, end);
      ResumeUpdates();
    }
  }
}
