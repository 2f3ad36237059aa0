/**
 * The page controller: it owns the records and the global time range, builds
 * the six views, filters the records by time for all of them, and routes the
 * events between them in the order their listeners were registered.
 */
module Dashboard {
  import opened Games
  import TimelineTop
  import TimelineDetail
  import PublisherBubble
  import GameBubble
  import ScatterPlot
  import GameList

  // ---------------------------------------------------------------------------
  // Record selection

  predicate InTime(g: Game, timeRange: seq<Instant>)
    requires |timeRange| == 2
  {
    InRange(g.releaseDate, timeRange[0], timeRange[1])
  }

  /** `filterData`: all records (none before loading), cut to a two-entry range with both ends included. */
  function FilterData(dataset: Option<seq<Game>>, timeRange: seq<Instant>): seq<Game>
  {
    var all := if dataset.Some? then dataset.value else [];
    if |timeRange| == 2 then Filter(all, (g: Game) => InTime(g, timeRange)) else all
  }

  /** A record is shown exactly when it was loaded and, under a range, lies in it. */
  lemma FilterDataMembers(dataset: Option<seq<Game>>, timeRange: seq<Instant>, g: Game)
    ensures g in FilterData(dataset, timeRange) <==>
      dataset.Some? && g in dataset.value && (|timeRange| == 2 ==> InTime(g, timeRange))
  {
  }

  /** The publisher test of the `selectPublisher` listener: "Indie" stands for every indie game. */
  predicate OfPublisher(g: Game, name: Option<string>)
  {
    if name == Some(PublisherBubble.IndieSelection) then IsIndie(g) else name == Some(g.publishers)
  }

  /** The publisher test of the `filterTime` listener, on the selected bubble's name. */
  predicate OfSelection(g: Game, selected: string)
  {
    if selected == PublisherBubble.IndieBubbleName then IsIndie(g) else g.publishers == selected
  }

  /** The five stand-in games shown when a publisher is chosen before any records are loaded. */
  function Placeholders(): (r: seq<Game>)
    ensures |r| == 5
  {
    [ Placeholder(931376, 55.9), Placeholder(100710, 11.02), Placeholder(619280, 12.21),
      Placeholder(728891, 9.18), Placeholder(881997, 57.71) ]
  }

  /**
   * A stand-in game: it has an id and a price but none of the loaded columns
   * (its peak sits under `PeakCCU`, not "Peak CCU").
   */
  function Placeholder(appId: int, price: real): Game
  {
    Game(appId, "", "", "", InvalidDate, Val(price), NaN, NaN, NaN)
  }

  /** The stand-in games have no peak, so the games view draws none of them. */
  lemma PlaceholdersDrawNothing(threshold: int, showIndie: bool)
    ensures GameBubble.Processed(Placeholders(), threshold, showIndie) == []
  {
    var ps := Placeholders();
    forall g | g in ps
      ensures Peak(g) == 0.0
    {
      assert g.peakCCU == NaN;
    }
    GameBubble.NoPeakDrawsNothing(ps, threshold, showIndie);
  }

  /** The games the `selectPublisher` listener hands to the games view. */
  function PublisherGames(dataset: Option<seq<Game>>, name: Option<string>, timeRange: seq<Instant>): seq<Game>
  {
    if dataset.None? || dataset.value == [] then Placeholders()
    else
      var games := Filter(dataset.value, (g: Game) => OfPublisher(g, name));
      if |timeRange| == 2 then Filter(games, (g: Game) => InTime(g, timeRange)) else games
  }

  /** The `filterTime` listener's games for a selected bubble. */
  function Rescoped(filtered: seq<Game>, selected: string): seq<Game>
  {
    Filter(filtered, (g: Game) => OfSelection(g, selected))
  }

  /** The name the publisher view announces for a selected bubble name. */
  function Announced(selected: string): string
  {
    if selected == PublisherBubble.IndieBubbleName then PublisherBubble.IndieSelection else selected
  }

  /**
   * After a time filter, the games view is re-scoped to the same games that
   * choosing the selected bubble again would show (unless a publisher is
   * literally named "Indie", which the two listeners read differently).
   */
  lemma {:induction false} RescopeMatchesSelection(dataset: seq<Game>, timeRange: seq<Instant>, selected: string)
    requires dataset != [] && selected != PublisherBubble.IndieSelection
    ensures Rescoped(FilterData(Some(dataset), timeRange), selected)
         == PublisherGames(Some(dataset), Some(Announced(selected)), timeRange)
  {
    var ofSel := (g: Game) => OfSelection(g, selected);
    var ofPub := (g: Game) => OfPublisher(g, Some(Announced(selected)));
    FilterSame(dataset, ofSel, ofPub);
    if |timeRange| == 2 {
      var inTime := (g: Game) => InTime(g, timeRange);
      var both := (g: Game) => inTime(g) && ofSel(g);
      FilterFilter(dataset, inTime, ofSel, both);
      FilterFilter(dataset, ofPub, inTime, both);
    }
  }

  // ---------------------------------------------------------------------------
  // The page

  class Page {
    /** The loaded records with valid dates; None before loading. */
    var dataset: Option<seq<Game>>
    /** The global range; empty for everything. */
    var timeRange: seq<Instant>
    var filteredData: seq<Game>
    /** `window.precomputedData` */
    var pre: Option<Precomputed>
    /** Whether the listeners registered after loading (time filter, game selection) are in place. */
    var loaded: bool
    /** Whether the games view is shown in place of the publisher view. */
    var showingGames: bool
    const top: TimelineTop.TimelineTopView
    const detail: TimelineDetail.TimeLineDetailView
    const publishers: PublisherBubble.PublisherBubbleView
    const games: GameBubble.GameBubbleView
    const scatter: ScatterPlot.ScatterPlotView
    const list: GameList.GameListView

    predicate Valid()
      reads top`nextTimerId, top`isWalkthroughActive, top`walkthroughInterval, top`liveIntervals
      reads top`windowStart, top`windowEnd, top`isApplyingDefaultBrush, top`pendingDefault
      reads top`groupedData, top`domain
      reads list`nextTimerId, list`liveTimers, list`autoRotateTimer, list`topGames
      reads publishers`thumbX, publishers`threshold
    {
      top.Valid() && list.Valid() && publishers.Valid()
    }

    /** Every view that shows the time-filtered records holds them. */
    predicate Shared()
      reads this`dataset, this`timeRange, this`filteredData
      reads top`data, detail`data, publishers`data, scatter`data, list`data
    {
      && filteredData == FilterData(dataset, timeRange)
      && top.data == filteredData && detail.data == filteredData && publishers.data == filteredData
      && scatter.data == filteredData && list.data == filteredData
    }

    /** The views after a refresh of the time-filtered records. */
    predicate Refreshed()
      reads this`pre, detail, publishers, scatter, list
    {
      && (publishers.data != [] ==> publishers.Rendered())
      && (scatter.data != [] ==> scatter.Rendered())
      && (list.data != [] ==> list.Rendered())
      && (TimelineDetail.LineData(pre, detail.data).Some? && TimelineDetail.LineData(pre, detail.data).value != []
          ==> detail.Rendered())
    }

    /** The games view, the scatter plot and the list filter by the threshold the publisher view last announced. */
    predicate ThresholdsAgree()
      reads publishers`threshold, games`threshold, scatter`threshold, list`threshold
    {
      games.threshold == publishers.threshold && scatter.threshold == publishers.threshold
      && list.threshold == publishers.threshold
    }

    /** The games view, the scatter plot and the list follow the publisher view's indie setting. */
    predicate IndieAgrees()
      reads publishers`showIndieBubble, games`showIndie, scatter`showIndie, list`showIndie
    {
      games.showIndie == publishers.showIndieBubble && scatter.showIndie == publishers.showIndieBubble
      && list.showIndie == publishers.showIndieBubble
    }

    /**
     * `initializeVisualizations`: every view starts empty and is drawn once
     * more. The thresholds disagree until the slider is first dragged: the
     * publisher view starts at its minimum, the others at 0.
     */
    constructor (pre: Option<Precomputed>)
      ensures Valid() && Shared() && Refreshed() && IndieAgrees()
      ensures dataset == None && timeRange == [] && this.pre == pre && !loaded && !showingGames
      ensures top.data == [] && detail.data == [] && publishers.data == [] && games.data == []
      ensures scatter.data == [] && list.data == []
      ensures top.State() == TimelineTop.Redrawn(TimelineTop.InitialState(), TimelineTop.Grouped(pre, [], []))
      ensures publishers.threshold == PublisherBubble.MinThreshold
      ensures games.threshold == 0 && scatter.threshold == 0 && list.threshold == 0
    {
      dataset := None;
      timeRange := [];
      filteredData := [];
      this.pre := pre;
      loaded := false;
      showingGames := false;
      top := new TimelineTop.TimelineTopView([], pre, []);
      detail := new TimelineDetail.TimeLineDetailView([], pre);
      publishers := new PublisherBubble.PublisherBubbleView([]);
      games := new GameBubble.GameBubbleView([]);
      scatter := new ScatterPlot.ScatterPlotView([]);
      list := new GameList.GameListView([]);
      new;
      FirstDraw();
    }

    /** The first draws of `initializeVisualizations`, on the views just built. */
    method FirstDraw()
      requires Valid() && Shared() && IndieAgrees()
      requires dataset == None && timeRange == [] && !loaded && !showingGames && games.data == []
      requires top.State() == TimelineTop.Redrawn(TimelineTop.InitialState(), TimelineTop.Grouped(pre, [], []))
      requires publishers.threshold == PublisherBubble.MinThreshold
      requires games.threshold == 0 && scatter.threshold == 0 && list.threshold == 0
      modifies top`groupedData, top`domain, top`updates, top`isApplyingDefaultBrush
      modifies top`pendingDefault, top`brushSelection, top`oldrange, top`pendingReapply
      modifies detail`lineData, detail`filteredLineData, detail`displayData, detail`xDomain, detail`yTop, detail`ticks
      modifies publishers`publisherData, publishers`filteredPublishers, publishers`nodes
      modifies scatter`processedData, scatter`validData, scatter`overPriceLimit, scatter`marks
      modifies list`filteredData, list`topGames, list`currentPage, list`translateX
      modifies list`autoRotateTimer, list`liveTimers, list`nextTimerId
      ensures Valid() && Shared() && Refreshed() && IndieAgrees()
      ensures dataset == None && timeRange == [] && !loaded && !showingGames
      ensures top.data == [] && detail.data == [] && publishers.data == [] && games.data == []
      ensures scatter.data == [] && list.data == []
      ensures top.State() == TimelineTop.Redrawn(TimelineTop.InitialState(), TimelineTop.Grouped(pre, [], []))
      ensures publishers.threshold == PublisherBubble.MinThreshold
      ensures games.threshold == 0 && scatter.threshold == 0 && list.threshold == 0
    {
      DrawAll(false);
      TimelineTop.RedrawnTwice(TimelineTop.InitialState(), TimelineTop.Grouped(pre, [], []));
    }

    /**
     * The redraw that ends `updateVisualizationState` and the first draws of
     * `initializeVisualizations`: the top timeline, unless the change came
     * from its own brush, then the other four views in order. Only drawn
     * state changes; the records and every setting stay.
     */
    method DrawAll(fromBrush: bool)
      requires Valid() && Shared()
      modifies top`groupedData, top`domain, top`updates, top`isApplyingDefaultBrush
      modifies top`pendingDefault, top`brushSelection, top`oldrange, top`pendingReapply
      modifies detail`lineData, detail`filteredLineData, detail`displayData, detail`xDomain, detail`yTop, detail`ticks
      modifies publishers`publisherData, publishers`filteredPublishers, publishers`nodes
      modifies scatter`processedData, scatter`validData, scatter`overPriceLimit, scatter`marks
      modifies list`filteredData, list`topGames, list`currentPage, list`translateX
      modifies list`autoRotateTimer, list`liveTimers, list`nextTimerId
      ensures Valid() && Shared() && Refreshed()
      ensures fromBrush ==> top.State() == old(top.State())
      ensures !fromBrush ==>
        top.State() == TimelineTop.Redrawn(old(top.State()), TimelineTop.Grouped(pre, timeRange, filteredData))
      ensures unchanged(this, games)
      ensures unchanged(publishers`threshold, publishers`showIndieBubble, scatter`threshold, scatter`showIndie)
      ensures unchanged(list`threshold, list`showIndie)
      ensures detail.timeRange == old(detail.timeRange)
      ensures filteredData != [] ==> list.currentPage == GameList.Page(0)
    {
      if !fromBrush {
        top.UpdateVis(pre, timeRange);
      }
      RefreshViews();
    }

    /**
     * The records and the pre-aggregated counts arrive: records without a
     * valid date are dropped; with none left nothing more happens and the
     * later listeners are never registered; otherwise every view is refreshed.
     */
    method Load(records: seq<Game>, counts: Precomputed)
      requires Valid()
      modifies this`pre, this`dataset, this`loaded, this`filteredData
      modifies top`data, detail`data, publishers`data, scatter`data, list`data
      modifies top`groupedData, top`domain, top`updates, top`isApplyingDefaultBrush
      modifies top`pendingDefault, top`brushSelection, top`oldrange, top`pendingReapply
      modifies detail`lineData, detail`filteredLineData, detail`displayData, detail`xDomain, detail`yTop, detail`ticks
      modifies publishers`publisherData, publishers`filteredPublishers, publishers`nodes
      modifies scatter`processedData, scatter`validData, scatter`overPriceLimit, scatter`marks
      modifies list`filteredData, list`topGames, list`currentPage, list`translateX
      modifies list`autoRotateTimer, list`liveTimers, list`nextTimerId
      ensures Valid()
      ensures pre == Some(counts) && dataset == Some(Filter(records, Dated))
      ensures dataset.value == [] ==>
        loaded == old(loaded) && filteredData == old(filteredData) && unchanged(top, detail, publishers, scatter, list)
      ensures dataset.value != [] ==> loaded && Shared() && Refreshed()
      ensures dataset.value != [] ==>
        top.State() == TimelineTop.Redrawn(old(top.State()), TimelineTop.Grouped(pre, timeRange, filteredData))
    {
      pre := Some(counts);
      dataset := Some(Filter(records, Dated));
      if dataset.value == [] {
        return;
      }
      ShowRecords();
    }

    /** The non-empty records are drawn in every view, and the later listeners are registered. */
    method ShowRecords()
      requires Valid()
      modifies this`loaded, this`filteredData
      modifies top`data, detail`data, publishers`data, scatter`data, list`data
      modifies top`groupedData, top`domain, top`updates, top`isApplyingDefaultBrush
      modifies top`pendingDefault, top`brushSelection, top`oldrange, top`pendingReapply
      modifies detail`lineData, detail`filteredLineData, detail`displayData, detail`xDomain, detail`yTop, detail`ticks
      modifies publishers`publisherData, publishers`filteredPublishers, publishers`nodes
      modifies scatter`processedData, scatter`validData, scatter`overPriceLimit, scatter`marks
      modifies list`filteredData, list`topGames, list`currentPage, list`translateX
      modifies list`autoRotateTimer, list`liveTimers, list`nextTimerId
      ensures Valid() && loaded && Shared() && Refreshed()
      ensures top.State() == TimelineTop.Redrawn(old(top.State()), TimelineTop.Grouped(pre, timeRange, filteredData))
    {
      UpdateVisualizationState(false);
      loaded := true;
    }

    /**
     * `updateVisualizationState`: filter the records by time, hand them to the
     * five views and redraw them; the top timeline is left alone when the
     * change came from its own brush.
     */
    method UpdateVisualizationState(fromBrush: bool)
      requires Valid()
      modifies this`filteredData
      modifies top`data, detail`data, publishers`data, scatter`data, list`data
      modifies top`groupedData, top`domain, top`updates, top`isApplyingDefaultBrush
      modifies top`pendingDefault, top`brushSelection, top`oldrange, top`pendingReapply
      modifies detail`lineData, detail`filteredLineData, detail`displayData, detail`xDomain, detail`yTop, detail`ticks
      modifies publishers`publisherData, publishers`filteredPublishers, publishers`nodes
      modifies scatter`processedData, scatter`validData, scatter`overPriceLimit, scatter`marks
      modifies list`filteredData, list`topGames, list`currentPage, list`translateX
      modifies list`autoRotateTimer, list`liveTimers, list`nextTimerId
      ensures Valid() && Shared() && Refreshed()
      ensures fromBrush ==> top.State() == old(top.State())
      ensures !fromBrush ==>
        top.State() == TimelineTop.Redrawn(old(top.State()), TimelineTop.Grouped(pre, timeRange, filteredData))
      ensures detail.timeRange == old(detail.timeRange)
      ensures filteredData != [] ==> list.currentPage == GameList.Page(0)
    {
      AssignData();
      DrawAll(fromBrush);
    }

    /** Hand the time-filtered records to the five views. */
    method AssignData()
      modifies this`filteredData, top`data, detail`data, publishers`data, scatter`data, list`data
      ensures Shared() && top.State() == old(top.State())
    {
      filteredData := FilterData(dataset, timeRange);
      top.data := filteredData;
      detail.data := filteredData;
      publishers.data := filteredData;
      scatter.data := filteredData;
      list.data := filteredData;
    }

    /** Redraw the detail timeline, the publisher bubbles, the scatter plot and the list. */
    method RefreshViews()
      requires list.Valid()
      modifies detail`lineData, detail`filteredLineData, detail`displayData, detail`xDomain, detail`yTop, detail`ticks
      modifies publishers`publisherData, publishers`filteredPublishers, publishers`nodes
      modifies scatter`processedData, scatter`validData, scatter`overPriceLimit, scatter`marks
      modifies list`filteredData, list`topGames, list`currentPage, list`translateX
      modifies list`autoRotateTimer, list`liveTimers, list`nextTimerId
      ensures list.Valid() && Refreshed()
      ensures detail.data == old(detail.data) && detail.timeRange == old(detail.timeRange)
      ensures publishers.data == old(publishers.data)
      ensures publishers.threshold == old(publishers.threshold) && publishers.thumbX == old(publishers.thumbX)
      ensures scatter.data == old(scatter.data) && list.data == old(list.data)
      ensures list.data != [] ==> list.currentPage == GameList.Page(0)
    {
      detail.UpdateVis(pre);
      RefreshPanels();
    }

    /** Redraw the publisher bubbles, the scatter plot and the list. */
    method RefreshPanels()
      requires list.Valid()
      modifies publishers`publisherData, publishers`filteredPublishers, publishers`nodes
      modifies scatter`processedData, scatter`validData, scatter`overPriceLimit, scatter`marks
      modifies list`filteredData, list`topGames, list`currentPage, list`translateX
      modifies list`autoRotateTimer, list`liveTimers, list`nextTimerId
      ensures list.Valid()
      ensures publishers.data != [] ==> publishers.Rendered()
      ensures scatter.data != [] ==> scatter.Rendered()
      ensures list.data != [] ==> list.Rendered() && list.currentPage == GameList.Page(0)
    {
      publishers.UpdateVis();
      scatter.UpdateVis();
      list.UpdateVis();
    }

    /**
     * The `filterTime` listener (registered once records are loaded). A range
     * with an invalid date makes it throw before changing anything. Otherwise
     * the range becomes global, everything but the top timeline is refreshed,
     * and the games view is re-scoped to the selected bubble, if any.
     */
    method FilterTime(range: Range)
      requires Valid()
      modifies this`timeRange, this`filteredData, detail`timeRange
      modifies top`data, detail`data, publishers`data, scatter`data, list`data
      modifies top`groupedData, top`domain, top`updates, top`isApplyingDefaultBrush
      modifies top`pendingDefault, top`brushSelection, top`oldrange, top`pendingReapply
      modifies detail`lineData, detail`filteredLineData, detail`displayData, detail`xDomain, detail`yTop, detail`ticks
      modifies publishers`publisherData, publishers`filteredPublishers, publishers`nodes
      modifies scatter`processedData, scatter`validData, scatter`overPriceLimit, scatter`marks
      modifies list`filteredData, list`topGames, list`currentPage, list`translateX
      modifies list`autoRotateTimer, list`liveTimers, list`nextTimerId
      modifies games`data
      modifies games`processedData, games`title, games`noDataMessages
      ensures Valid() && top.State() == old(top.State())
      ensures !loaded || range.start.InvalidDate? || range.end.InvalidDate? ==>
        timeRange == old(timeRange) && filteredData == old(filteredData)
        && unchanged(detail, publishers, scatter, list, games) && unchanged(top)
      ensures loaded && range.start.At? && range.end.At? ==>
        && timeRange == [range.start, range.end] && detail.timeRange == Some(timeRange)
        && Shared() && Refreshed()
        && (publishers.selectedPublisher.Some? && publishers.selectedPublisher.value != [] ==>
              games.data == Rescoped(filteredData, publishers.selectedPublisher.value))
    {
      if !loaded || range.start.InvalidDate? || range.end.InvalidDate? {
        return;
      }
      timeRange := [range.start, range.end];
      detail.timeRange := Some(timeRange);
      UpdateVisualizationState(true);
      RescopeGames();
    }

    /** With a bubble selected, the games view gets that bubble's games among the filtered records. */
    method RescopeGames()
      modifies games`data, games`processedData, games`title, games`noDataMessages
      ensures publishers.selectedPublisher.Some? && publishers.selectedPublisher.value != [] ==>
        games.data == Rescoped(filteredData, publishers.selectedPublisher.value)
        && (games.data != [] ==> games.Rendered())
      ensures !(publishers.selectedPublisher.Some? && publishers.selectedPublisher.value != []) ==> unchanged(games)
    {
      if publishers.selectedPublisher.Some? && publishers.selectedPublisher.value != [] {
        games.data := Rescoped(filteredData, publishers.selectedPublisher.value);
        games.UpdateVis();
      }
    }

    /**
     * The `selectPublisher` event: the scatter plot and the list filter by the
     * publisher, then the page switches to the games view and fills it with
     * the publisher's games in the global range (stand-ins before loading).
     */
    method SelectPublisher(name: Option<string>)
      requires Valid()
      modifies this`showingGames, scatter`selectPublisher
      modifies scatter`processedData, scatter`validData, scatter`overPriceLimit, scatter`marks
      modifies list`selectedPublisher
      modifies list`filteredData, list`topGames, list`currentPage, list`translateX
      modifies list`autoRotateTimer, list`liveTimers, list`nextTimerId
      modifies games`data
      modifies games`processedData, games`title, games`noDataMessages
      ensures Valid() && showingGames
      ensures scatter.selectPublisher == name && list.selectedPublisher == name
      ensures scatter.data != [] ==> scatter.Rendered()
      ensures list.data != [] ==> list.Rendered() && list.currentPage == GameList.Page(0)
      ensures games.data == PublisherGames(dataset, name, timeRange)
      ensures games.data != [] ==> games.Rendered()
      ensures old(publishers.Rendered()) ==> publishers.Rendered()
    {
      PublisherListeners(name);
      ShowPublisherGames(name);
    }

    /** The `selectPublisher` listeners of the scatter plot and the list, in that order. */
    method PublisherListeners(name: Option<string>)
      requires list.Valid()
      modifies scatter`selectPublisher, scatter`processedData, scatter`validData, scatter`overPriceLimit, scatter`marks
      modifies list`selectedPublisher, list`filteredData, list`topGames, list`currentPage, list`translateX
      modifies list`autoRotateTimer, list`liveTimers, list`nextTimerId
      ensures list.Valid()
      ensures scatter.selectPublisher == name && list.selectedPublisher == name
      ensures scatter.data != [] ==> scatter.Rendered()
      ensures list.data != [] ==> list.Rendered() && list.currentPage == GameList.Page(0)
    {
      scatter.FilterByPublisher(name);
      list.FilterByPublisher(name);
    }

    /** The page's own `selectPublisher` listener: the games view shows the publisher's games. */
    method ShowPublisherGames(name: Option<string>)
      modifies this`showingGames, games`data, games`processedData, games`title, games`noDataMessages
      ensures showingGames
      ensures games.data == PublisherGames(dataset, name, timeRange)
      ensures games.data != [] ==> games.Rendered()
    {
      showingGames := true;
      games.data := PublisherGames(dataset, name, timeRange);
      games.UpdateVis();
    }

    /**
     * The `backToPublishers` event: back to the publisher view, the scatter
     * plot and the list lose their publisher filter, and no game is selected
     * anywhere. The publisher view keeps its selected bubble.
     */
    method BackToPublishers()
      requires list.Valid()
      modifies this`showingGames, scatter`selectPublisher, scatter`selectedGameId
      modifies scatter`processedData, scatter`validData, scatter`overPriceLimit, scatter`marks
      modifies list`selectedPublisher, list`selectedGameId
      modifies list`filteredData, list`topGames, list`currentPage, list`translateX
      modifies list`autoRotateTimer, list`liveTimers, list`nextTimerId
      modifies games`selectedGameId
      ensures list.Valid() && !showingGames
      ensures scatter.selectPublisher == None && list.selectedPublisher == None
      ensures scatter.selectedGameId == None && list.selectedGameId == None && games.selectedGameId == None
      ensures scatter.data != [] ==> scatter.Rendered()
      ensures list.data != [] ==> list.Rendered()
      ensures old(publishers.Rendered()) ==> publishers.Rendered()
    {
      showingGames := false;
      ClearPublisherFilter();
      ClearGameSelection();
    }

    /** The scatter plot and the list drop their publisher filter and redraw. */
    method ClearPublisherFilter()
      requires list.Valid()
      modifies scatter`selectPublisher
      modifies scatter`processedData, scatter`validData, scatter`overPriceLimit, scatter`marks
      modifies list`selectedPublisher
      modifies list`filteredData, list`topGames, list`currentPage, list`translateX
      modifies list`autoRotateTimer, list`liveTimers, list`nextTimerId
      ensures list.Valid()
      ensures scatter.selectPublisher == None && list.selectedPublisher == None
      ensures scatter.data != [] ==> scatter.Rendered()
      ensures list.data != [] ==> list.Rendered()
    {
      scatter.selectPublisher := None;
      scatter.UpdateVis();
      list.selectedPublisher := None;
      list.UpdateVis();
    }

    /** No game is selected in the games view, the list or the scatter plot. */
    method ClearGameSelection()
      modifies games`selectedGameId, list`selectedGameId
      modifies scatter`selectedGameId, scatter`processedData, scatter`validData, scatter`overPriceLimit, scatter`marks
      ensures scatter.selectedGameId == None && list.selectedGameId == None && games.selectedGameId == None
      ensures scatter.data != [] ==> scatter.Rendered()
      ensures scatter.selectPublisher == old(scatter.selectPublisher)
      ensures list.Valid() == old(list.Valid()) && list.Rendered() == old(list.Rendered())
      ensures list.selectedPublisher == old(list.selectedPublisher)
    {
      games.HighlightGame(None);
      list.HighlightGame(None);
      scatter.HighlightGame(None);
    }

    /** The `selectGame` listener (registered once records are loaded): every view selects the game. */
    method SelectGame(gameId: int)
      modifies publishers`selectedPublisher, games`selectedGameId, scatter`selectedGameId
      modifies scatter`processedData, scatter`validData, scatter`overPriceLimit, scatter`marks
      modifies list`selectedGameId
      ensures !loaded ==> unchanged(publishers, games, scatter) && unchanged(list`selectedGameId)
      ensures loaded ==>
        && publishers.selectedPublisher == PublisherBubble.HighlightSelection(
             publishers.data, publishers.showIndieBubble, old(publishers.selectedPublisher), gameId)
        && games.selectedGameId == Some(gameId) && scatter.selectedGameId == Some(gameId)
        && list.selectedGameId == Some(gameId)
        && (scatter.data != [] ==> scatter.Rendered())
      ensures old(publishers.Rendered()) ==> publishers.Rendered()
      ensures old(list.Rendered()) ==> list.Rendered()
    {
      if !loaded {
        return;
      }
      publishers.HighlightPublisher(gameId);
      GameListeners(gameId);
    }

    /** The game views' part of the `selectGame` listener, in its order: games, scatter plot, list, games. */
    method GameListeners(gameId: int)
      modifies games`selectedGameId, scatter`selectedGameId
      modifies scatter`processedData, scatter`validData, scatter`overPriceLimit, scatter`marks
      modifies list`selectedGameId
      ensures games.selectedGameId == Some(gameId) && scatter.selectedGameId == Some(gameId)
      ensures list.selectedGameId == Some(gameId)
      ensures scatter.data != [] ==> scatter.Rendered()
      ensures old(list.Rendered()) ==> list.Rendered()
    {
      games.HighlightGame(Some(gameId));
      scatter.HighlightGame(Some(gameId));
      list.HighlightGame(Some(gameId));
      games.HighlightGame(Some(gameId));
    }

    /** A click on a publisher bubble: the bubble's announcement goes to `selectPublisher`. */
    method ClickPublisher(d: PublisherBubble.PublisherDatum)
      requires Valid()
      modifies publishers`selectedPublisher
      modifies this`showingGames, scatter`selectPublisher
      modifies scatter`processedData, scatter`validData, scatter`overPriceLimit, scatter`marks
      modifies list`selectedPublisher
      modifies list`filteredData, list`topGames, list`currentPage, list`translateX
      modifies list`autoRotateTimer, list`liveTimers, list`nextTimerId
      modifies games`data
      modifies games`processedData, games`title, games`noDataMessages
      ensures Valid() && showingGames
      ensures (publishers.selectedPublisher, scatter.selectPublisher) ==
        PublisherBubble.ClickOutcome(old(publishers.selectedPublisher), d)
      ensures list.selectedPublisher == scatter.selectPublisher
      ensures games.data == PublisherGames(dataset, scatter.selectPublisher, timeRange)
      ensures old(publishers.Rendered()) ==> publishers.Rendered()
    {
      var announced := publishers.Click(d);
      SelectPublisher(announced);
    }

    /**
     * A drag of the threshold slider: the publisher view redraws and announces
     * the threshold, and the games view, the scatter plot and the list take it
     * up, in that order. Afterwards all four views use the same threshold.
     */
    method DragThreshold(eventX: real)
      requires Valid()
      modifies publishers`thumbX, publishers`threshold
      modifies publishers`publisherData, publishers`filteredPublishers, publishers`nodes
      modifies games`threshold, games`processedData, games`title, games`noDataMessages
      modifies scatter`threshold, scatter`processedData, scatter`validData, scatter`overPriceLimit, scatter`marks
      modifies list`threshold, list`filteredData, list`topGames, list`currentPage, list`translateX
      modifies list`autoRotateTimer, list`liveTimers, list`nextTimerId
      ensures Valid() && ThresholdsAgree()
      ensures publishers.threshold == PublisherBubble.SliderThreshold(eventX)
      ensures publishers.data != [] ==> publishers.Rendered()
      ensures games.data != [] ==> games.Rendered()
      ensures scatter.data != [] ==> scatter.Rendered()
      ensures list.data != [] ==> list.Rendered()
    {
      var threshold := publishers.Dragged(eventX);
      ThresholdListeners(threshold);
    }

    /** The `updatePeakCCUThreshold` listeners of the games view, the scatter plot and the list, in that order. */
    method ThresholdListeners(threshold: int)
      requires list.Valid()
      modifies games`threshold, games`processedData, games`title, games`noDataMessages
      modifies scatter`threshold, scatter`processedData, scatter`validData, scatter`overPriceLimit, scatter`marks
      modifies list`threshold, list`filteredData, list`topGames, list`currentPage, list`translateX
      modifies list`autoRotateTimer, list`liveTimers, list`nextTimerId
      ensures list.Valid()
      ensures games.threshold == threshold && scatter.threshold == threshold && list.threshold == threshold
      ensures games.data != [] ==> games.Rendered()
      ensures scatter.data != [] ==> scatter.Rendered()
      ensures list.data != [] ==> list.Rendered()
    {
      games.OnThreshold(threshold);
      scatter.OnThreshold(threshold);
      list.OnThreshold(threshold);
    }

    /**
     * The indie toggle: the publisher view flips and announces its setting, and
     * the games view, the scatter plot and the list take it up.
     */
    method ToggleIndie()
      requires Valid()
      modifies publishers`showIndieBubble, publishers`publisherData, publishers`filteredPublishers, publishers`nodes
      modifies games`showIndie, games`processedData, games`title, games`noDataMessages
      modifies scatter`showIndie, scatter`processedData, scatter`validData, scatter`overPriceLimit, scatter`marks
      modifies list`showIndie, list`filteredData, list`topGames, list`currentPage, list`translateX
      modifies list`autoRotateTimer, list`liveTimers, list`nextTimerId
      ensures Valid() && IndieAgrees()
      ensures publishers.showIndieBubble == !old(publishers.showIndieBubble)
      ensures publishers.data != [] ==> publishers.Rendered()
      ensures games.data != [] ==> games.Rendered()
      ensures scatter.data != [] ==> scatter.Rendered()
      ensures list.data != [] ==> list.Rendered()
    {
      var show := publishers.ToggleIndie();
      IndieListeners(show);
    }

    /** The `updateIndieVisibility` listeners of the games view, the scatter plot and the list, in that order. */
    method IndieListeners(show: bool)
      requires list.Valid()
      modifies games`showIndie, games`processedData, games`title, games`noDataMessages
      modifies scatter`showIndie, scatter`processedData, scatter`validData, scatter`overPriceLimit, scatter`marks
      modifies list`showIndie, list`filteredData, list`topGames, list`currentPage, list`translateX
      modifies list`autoRotateTimer, list`liveTimers, list`nextTimerId
      ensures list.Valid()
      ensures games.showIndie == show && scatter.showIndie == show && list.showIndie == show
      ensures games.data != [] ==> games.Rendered()
      ensures scatter.data != [] ==> scatter.Rendered()
      ensures list.data != [] ==> list.Rendered()
    {
      games.OnIndieVisibility(show);
      scatter.OnIndieVisibility(show);
      list.OnIndieVisibility(show);
    }

    /** An announcement of the top timeline, delivered to the `filterTime` listener. */
    method Announce(emitted: Option<Range>)
      requires Valid()
      modifies this`timeRange, this`filteredData, detail`timeRange
      modifies top`data, detail`data, publishers`data, scatter`data, list`data
      modifies top`groupedData, top`domain, top`updates, top`isApplyingDefaultBrush
      modifies top`pendingDefault, top`brushSelection, top`oldrange, top`pendingReapply
      modifies detail`lineData, detail`filteredLineData, detail`displayData, detail`xDomain, detail`yTop, detail`ticks
      modifies publishers`publisherData, publishers`filteredPublishers, publishers`nodes
      modifies scatter`processedData, scatter`validData, scatter`overPriceLimit, scatter`marks
      modifies list`filteredData, list`topGames, list`currentPage, list`translateX
      modifies list`autoRotateTimer, list`liveTimers, list`nextTimerId
      modifies games`data
      modifies games`processedData, games`title, games`noDataMessages
      ensures Valid() && top.State() == old(top.State())
      ensures emitted.None? ==> (timeRange == old(timeRange) && filteredData == old(filteredData)
        && unchanged(top, detail, publishers, scatter, list, games))
      ensures emitted.Some? && loaded && emitted.value.start.At? && emitted.value.end.At? ==>
        timeRange == [emitted.value.start, emitted.value.end] && Shared()
    {
      if emitted.Some? {
        FilterTime(emitted.value);
      }
    }

    /** The user moves or releases the brush (`fromUser` for a clear by a click outside it). */
    method BrushEvent(selection: Option<Range>, ended: bool, fromUser: bool)
      requires Valid()
      modifies this`timeRange, this`filteredData, detail`timeRange
      modifies top`data, detail`data, publishers`data, scatter`data, list`data
      modifies top`groupedData, top`domain, top`updates, top`isApplyingDefaultBrush
      modifies top`pendingDefault, top`brushSelection, top`oldrange, top`pendingReapply
      modifies detail`lineData, detail`filteredLineData, detail`displayData, detail`xDomain, detail`yTop, detail`ticks
      modifies publishers`publisherData, publishers`filteredPublishers, publishers`nodes
      modifies scatter`processedData, scatter`validData, scatter`overPriceLimit, scatter`marks
      modifies list`filteredData, list`topGames, list`currentPage, list`translateX
      modifies list`autoRotateTimer, list`liveTimers, list`nextTimerId
      modifies games`data
      modifies games`processedData, games`title, games`noDataMessages
      ensures Valid()
      ensures top.State() == old(top.State()).(oldrange := top.oldrange, pendingReapply := top.pendingReapply)
      ensures old(top.isApplyingDefaultBrush) || !old(top.updates) || (selection.None? && !(ended && fromUser)) ==>
        timeRange == old(timeRange) && filteredData == old(filteredData)
        && unchanged(detail, publishers, scatter, list, games)
      ensures (selection.Some? && old(top.updates) && !old(top.isApplyingDefaultBrush) && loaded
        && selection.value.start.At? && selection.value.end.At?) ==>
        timeRange == [selection.value.start, selection.value.end] && Shared()
      ensures (selection.None? && ended && fromUser && old(top.updates) && !old(top.isApplyingDefaultBrush)
        && top.groupedData.Some?) ==>
        && top.oldrange == TimelineTop.AllRange && top.pendingReapply == old(top.pendingReapply) + 1
        && (loaded && top.groupedData.value != [] ==>
              var extent := Extent(top.groupedData.value, TimelineTop.SampleTime);
              timeRange == [extent.start, extent.end] && Shared())
    {
      var emitted;
      if ended {
        emitted := top.OnBrushEnd(selection, fromUser);
      } else {
        emitted := top.OnBrush(selection);
      }
      Announce(emitted);
    }

    /** The default brush's timeout fires and announces its window. */
    method DefaultBrushFired()
      requires Valid() && top.pendingDefault.Some?
      modifies this`timeRange, this`filteredData, detail`timeRange
      modifies top`data, detail`data, publishers`data, scatter`data, list`data
      modifies top`groupedData, top`domain, top`updates, top`isApplyingDefaultBrush
      modifies top`pendingDefault, top`brushSelection, top`oldrange, top`pendingReapply
      modifies detail`lineData, detail`filteredLineData, detail`displayData, detail`xDomain, detail`yTop, detail`ticks
      modifies publishers`publisherData, publishers`filteredPublishers, publishers`nodes
      modifies scatter`processedData, scatter`validData, scatter`overPriceLimit, scatter`marks
      modifies list`filteredData, list`topGames, list`currentPage, list`translateX
      modifies list`autoRotateTimer, list`liveTimers, list`nextTimerId
      modifies games`data
      modifies games`processedData, games`title, games`noDataMessages
      ensures Valid()
      ensures top.State() == old(top.State()).(updates := true, isApplyingDefaultBrush := false, pendingDefault := None)
      ensures loaded && old(top.pendingDefault.value).start.At? && old(top.pendingDefault.value).end.At? ==>
        timeRange == [old(top.pendingDefault.value).start, old(top.pendingDefault.value).end] && Shared()
    {
      var window := top.DefaultBrushTimer();
      Announce(Some(window));
    }

    /** The re-apply timeout after a clear of the brush. */
    method ReapplyFired()
      requires Valid() && top.pendingReapply > 0
      modifies top`updates, top`isApplyingDefaultBrush, top`pendingDefault, top`brushSelection
      modifies top`oldrange, top`pendingReapply
      ensures Valid() && top.pendingReapply == old(top.pendingReapply) - 1
      ensures (!old(top.updates) || old(top.isApplyingDefaultBrush)) ==> top.pendingDefault == old(top.pendingDefault)
      ensures old(top.updates) && !old(top.isApplyingDefaultBrush) && top.groupedData.Some? && top.groupedData.value != [] ==>
        top.pendingDefault == Some(TimelineTop.DefaultWindow(top.domain))
    {
      top.ReapplyTimer();
    }

    /** The walkthrough button. */
    method WalkthroughButton()
      requires Valid()
      modifies this`timeRange, this`filteredData, detail`timeRange
      modifies top`data, detail`data, publishers`data, scatter`data, list`data
      modifies top`groupedData, top`domain, top`updates, top`isApplyingDefaultBrush
      modifies top`pendingDefault, top`brushSelection, top`oldrange, top`pendingReapply
      modifies detail`lineData, detail`filteredLineData, detail`displayData, detail`xDomain, detail`yTop, detail`ticks
      modifies publishers`publisherData, publishers`filteredPublishers, publishers`nodes
      modifies scatter`processedData, scatter`validData, scatter`overPriceLimit, scatter`marks
      modifies list`filteredData, list`topGames, list`currentPage, list`translateX
      modifies list`autoRotateTimer, list`liveTimers, list`nextTimerId
      modifies games`data
      modifies games`processedData, games`title, games`noDataMessages
      modifies top`isWalkthroughActive, top`walkthroughInterval, top`liveIntervals, top`nextTimerId
      modifies top`windowStart, top`windowEnd, top`walkEnd
      ensures Valid() && top.isWalkthroughActive == !old(top.isWalkthroughActive)
      ensures !old(top.isWalkthroughActive) && loaded ==>
        timeRange == [At(top.windowStart), At(top.windowEnd)] && Shared()
      ensures old(top.isWalkthroughActive) ==> (top.liveIntervals == {} && timeRange == old(timeRange) && filteredData == old(filteredData)
        && unchanged(detail, publishers, scatter, list, games))
    {
      var emitted := top.ToggleWalkthrough();
      Announce(emitted);
    }

    /** One firing of the walkthrough interval. */
    method WalkthroughFired(interval: nat)
      requires Valid() && interval in top.liveIntervals
      modifies this`timeRange, this`filteredData, detail`timeRange
      modifies top`data, detail`data, publishers`data, scatter`data, list`data
      modifies top`groupedData, top`domain, top`updates, top`isApplyingDefaultBrush
      modifies top`pendingDefault, top`brushSelection, top`oldrange, top`pendingReapply
      modifies detail`lineData, detail`filteredLineData, detail`displayData, detail`xDomain, detail`yTop, detail`ticks
      modifies publishers`publisherData, publishers`filteredPublishers, publishers`nodes
      modifies scatter`processedData, scatter`validData, scatter`overPriceLimit, scatter`marks
      modifies list`filteredData, list`topGames, list`currentPage, list`translateX
      modifies list`autoRotateTimer, list`liveTimers, list`nextTimerId
      modifies games`data
      modifies games`processedData, games`title, games`noDataMessages
      modifies top`isWalkthroughActive, top`walkthroughInterval, top`liveIntervals, top`nextTimerId
      modifies top`windowStart, top`windowEnd, top`walkEnd
      ensures Valid()
      ensures top.windowStart == AddDays(old(top.windowStart), TimelineTop.StepDays)
      ensures top.isWalkthroughActive && loaded ==> timeRange == [At(top.windowStart), At(top.windowEnd)] && Shared()
      ensures !top.isWalkthroughActive ==> (top.liveIntervals == {} && timeRange == old(timeRange) && filteredData == old(filteredData)
        && unchanged(detail, publishers, scatter, list, games))
    {
      var emitted := top.WalkTick(interval);
      Announce(emitted);
    }
  }
}
