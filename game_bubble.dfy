/**
 * The games view: one bubble per game of the selected publisher (or of the
 * indie category), kept when its peak CCU is positive, reaches the shared
 * threshold and is not hidden by the indie toggle, largest 50 first, placed
 * in one of three horizontal bands by review rate.
 */
module GameBubble {
  import opened Games

  /** At most this many bubbles are drawn. */
  const MaxBubbles: nat := 50
  /** Review rates above this go to the right band. */
  const HighRate: real := 0.83
  /** Review rates below this go to the left band. */
  const LowRate: real := 0.666
  /** Titles longer than this are cut and given an ellipsis. */
  const LabelLength: nat := 10
  const IndieTitle: string := "Top 50 Games by Indie Publisher"
  /** The heading the view is created with. */
  const InitialTitle: string := "Publisher's Games"

  /** One element of `processedData`. */
  datatype Bubble = Bubble(appId: int, title: string, peak: real, positiveReviewRate: real, isIndie: bool)

  /** `d.Name || "Unknown Game"` */
  function Title(g: Game): (t: string)
    ensures t != []
    ensures g.name != [] ==> t == g.name
  {
    if g.name == [] then "Unknown Game" else g.name
  }

  function ToBubble(g: Game): Bubble
  {
    Bubble(g.appId, Title(g), Peak(g), ReviewRatio(g), IsIndie(g))
  }

  function PeakOf(b: Bubble): real
  {
    b.peak
  }

  /** A bubble survives the three filters: positive peak, threshold (when set), indie toggle. */
  predicate Qualifies(b: Bubble, threshold: int, showIndie: bool)
  {
    && b.peak > 0.0
    && (threshold > 0 ==> b.peak >= threshold as real)
    && (showIndie || !b.isIndie)
  }

  /** The games left after the three filters of `updateVis`, in data order. */
  function Candidates(data: seq<Game>, threshold: int, showIndie: bool): seq<Bubble>
  {
    var positive := Filter(Map(data, ToBubble), (b: Bubble) => b.peak > 0.0);
    var reached := if threshold > 0 then Filter(positive, (b: Bubble) => b.peak >= threshold as real) else positive;
    if !showIndie then Filter(reached, (b: Bubble) => !b.isIndie) else reached
  }

  /** The pipeline of `updateVis`: map, the three filters, sort and keep the first 50. */
  method ProcessData(data: seq<Game>, threshold: int, showIndie: bool) returns (processed: seq<Bubble>)
    ensures processed == Processed(data, threshold, showIndie)
  {
    processed := Map(data, ToBubble);
    processed := Filter(processed, (b: Bubble) => b.peak > 0.0);
    if threshold > 0 {
      processed := Filter(processed, (b: Bubble) => b.peak >= threshold as real);
    }
    if !showIndie {
      processed := Filter(processed, (b: Bubble) => !b.isIndie);
    }
    assert processed == Candidates(data, threshold, showIndie);
    CandidatesQualify(data, threshold, showIndie);
    processed := TopN(processed, PeakOf, MaxBubbles);
  }

  /** The three filters in a row are one filter by `Qualifies`. */
  lemma CandidatesQualify(data: seq<Game>, threshold: int, showIndie: bool)
    ensures Candidates(data, threshold, showIndie) == Kept(data, threshold, showIndie)
  {
    var all := Map(data, ToBubble);
    var positive := Filter(all, (b: Bubble) => b.peak > 0.0);
    var reached := if threshold > 0 then Filter(positive, (b: Bubble) => b.peak >= threshold as real) else positive;
    var byPeak := (b: Bubble) => b.peak > 0.0 && (threshold > 0 ==> b.peak >= threshold as real);
    if threshold > 0 {
      FilterFilter(all, (b: Bubble) => b.peak > 0.0, (b: Bubble) => b.peak >= threshold as real, byPeak);
    } else {
      FilterFilter(all, (b: Bubble) => b.peak > 0.0, (b: Bubble) => true, byPeak);
      FilterAll(positive, (b: Bubble) => true);
    }
    assert reached == Filter(all, byPeak);
    if !showIndie {
      FilterFilter(all, byPeak, (b: Bubble) => !b.isIndie, (b: Bubble) => Qualifies(b, threshold, showIndie));
    } else {
      FilterFilter(all, byPeak, (b: Bubble) => true, (b: Bubble) => Qualifies(b, threshold, showIndie));
      FilterAll(reached, (b: Bubble) => true);
    }
  }

  /** The bubbles that pass the filters, in data order, as one filter. */
  function Kept(data: seq<Game>, threshold: int, showIndie: bool): seq<Bubble>
  {
    Filter(Map(data, ToBubble), (b: Bubble) => Qualifies(b, threshold, showIndie))
  }

  /** A bubble is kept exactly when it qualifies and is the bubble of some game of the data. */
  lemma KeptMembers(data: seq<Game>, threshold: int, showIndie: bool, b: Bubble)
    ensures b in Kept(data, threshold, showIndie) <==>
      Qualifies(b, threshold, showIndie) && exists g :: g in data && ToBubble(g) == b
  {
    var all := Map(data, ToBubble);
    if g :| g in data && ToBubble(g) == b {
      var i :| 0 <= i < |data| && data[i] == g;
      assert all[i] == b;
    }
    if b in all {
      var i :| 0 <= i < |all| && all[i] == b;
      assert data[i] in data;
    }
  }

  /** `processedData` after `updateVis`: the qualifying bubbles, largest peak first, at most 50. */
  function Processed(data: seq<Game>, threshold: int, showIndie: bool): seq<Bubble>
  {
    TopN(Kept(data, threshold, showIndie), PeakOf, MaxBubbles)
  }

  /** Games without a peak player count draw no bubble. */
  lemma NoPeakDrawsNothing(data: seq<Game>, threshold: int, showIndie: bool)
    requires forall g :: g in data ==> Peak(g) == 0.0
    ensures Processed(data, threshold, showIndie) == []
  {
    var kept := Kept(data, threshold, showIndie);
    if kept != [] {
      assert kept[0] in kept;
      KeptMembers(data, threshold, showIndie, kept[0]);
    }
    TopNShape(kept, PeakOf, MaxBubbles);
  }

  /**
   * The drawn bubbles are qualifying bubbles of games of the data, sorted by
   * peak, at most 50; all qualifying games are drawn when there are no more
   * than 50 of them.
   */
  lemma ProcessedShape(data: seq<Game>, threshold: int, showIndie: bool)
    ensures var r := Processed(data, threshold, showIndie);
      && |r| == Min(MaxBubbles, |Kept(data, threshold, showIndie)|)
      && SortedDesc(r, PeakOf)
      && (forall b :: b in r ==> Qualifies(b, threshold, showIndie) && exists g :: g in data && ToBubble(g) == b)
      && (|Kept(data, threshold, showIndie)| <= MaxBubbles ==> r == SortDesc(Kept(data, threshold, showIndie), PeakOf))
  {
    var c := Kept(data, threshold, showIndie);
    var r := Processed(data, threshold, showIndie);
    TopNShape(c, PeakOf, MaxBubbles);
    forall b | b in r
      ensures Qualifies(b, threshold, showIndie) && exists g :: g in data && ToBubble(g) == b
    {
      assert b in multiset(r);
      assert b in c;
      KeptMembers(data, threshold, showIndie, b);
    }
  }

  /** A qualifying game without a bubble means 50 were drawn, none with a smaller peak. */
  lemma ProcessedIsTop(data: seq<Game>, threshold: int, showIndie: bool, g: Game)
    requires g in data && Qualifies(ToBubble(g), threshold, showIndie)
    requires ToBubble(g) !in Processed(data, threshold, showIndie)
    ensures |Processed(data, threshold, showIndie)| == MaxBubbles
    ensures ToBubble(g).peak <= Processed(data, threshold, showIndie)[MaxBubbles - 1].peak
  {
    var c := Kept(data, threshold, showIndie);
    var r := Processed(data, threshold, showIndie);
    KeptMembers(data, threshold, showIndie, ToBubble(g));
    assert ToBubble(g) in multiset(c) - multiset(r);
    TopNLeftBehind(c, PeakOf, MaxBubbles, ToBubble(g));
  }

  /** Some bubble is drawn exactly when some game of the data qualifies. */
  lemma ProcessedEmpty(data: seq<Game>, threshold: int, showIndie: bool)
    ensures Processed(data, threshold, showIndie) == [] <==>
      (forall g :: g in data ==> !Qualifies(ToBubble(g), threshold, showIndie))
  {
    var c := Kept(data, threshold, showIndie);
    TopNShape(c, PeakOf, MaxBubbles);
    if g :| g in data && Qualifies(ToBubble(g), threshold, showIndie) {
      KeptMembers(data, threshold, showIndie, ToBubble(g));
    } else if c != [] {
      KeptMembers(data, threshold, showIndie, c[0]);
    }
  }

  // ---------------------------------------------------------------------------
  // Placement and outline

  /** `forceX` target as a fraction of the width: right, left or middle band. */
  function BandFraction(rate: real): (f: real)
    ensures f == 0.75 <==> rate > HighRate
    ensures f == 0.25 <==> rate < LowRate
    ensures f == 0.5 <==> LowRate <= rate <= HighRate
  {
    if rate > HighRate then 0.75
    else if rate < LowRate then 0.25
    else 0.5
  }

  /** A better-reviewed game never sits in a band further left. */
  lemma BandMonotone(a: real, b: real)
    requires a <= b
    ensures BandFraction(a) <= BandFraction(b)
  {
  }

  /** Stroke width and stroke opacity of a bubble: 3 and 1 when selected, 1 and 0.3 otherwise. */
  function Outline(b: Bubble, selected: Option<int>): (o: (int, real))
    ensures o.0 == 3 <==> selected == Some(b.appId)
    ensures o.1 == 1.0 <==> selected == Some(b.appId)
    ensures o.0 == 1 <==> o.1 == 0.3
  {
    if selected == Some(b.appId) then (3, 1.0) else (1, 0.3)
  }

  /** `title.length > 10 ? title.substring(0, 10) + "..." : title` */
  function Label(title: string): (r: string)
    ensures |r| <= LabelLength + 3
    ensures |title| <= LabelLength ==> r == title
    ensures |title| > LabelLength ==> |r| == LabelLength + 3 && r[LabelLength..] == "..."
    ensures r[..Min(|title|, LabelLength)] == title[..Min(|title|, LabelLength)]
  {
    if |title| > LabelLength then title[..LabelLength] + "..." else title
  }

  /**
   * The chart title once there is data: the indie title, or "Games by " and
   * the first game's publisher column (or "Unknown Publisher").
   */
  function ChartTitle(data: seq<Game>): string
    requires data != []
  {
    var hasIndie := exists g :: g in data && IsIndie(g);
    if hasIndie || data[0].publishers == "Indie" then IndieTitle
    else "Games by " + (if data[0].publishers == "" then "Unknown Publisher" else data[0].publishers)
  }

  /**
   * The indie title is shown exactly when some game is indie or the first
   * game's publisher column is "Indie"; otherwise the title names the first
   * game's publisher column, when it is not empty.
   */
  lemma ChartTitleCases(data: seq<Game>)
    requires data != []
    ensures var t := ChartTitle(data);
      && (t == IndieTitle <==> (exists g :: g in data && IsIndie(g)) || data[0].publishers == "Indie")
      && (t != IndieTitle ==> |t| > 9 && t[..9] == "Games by ")
      && (t != IndieTitle && data[0].publishers != "" ==> t[9..] == data[0].publishers)
  {
    var t := ChartTitle(data);
    if !((exists g :: g in data && IsIndie(g)) || data[0].publishers == "Indie") {
      var name := if data[0].publishers == "" then "Unknown Publisher" else data[0].publishers;
      assert t == "Games by " + name;
      assert t[0] == 'G' && IndieTitle[0] == 'T';
    }
  }

  // ---------------------------------------------------------------------------
  // The view

  class GameBubbleView {
    var data: seq<Game>
    var selectedGameId: Option<int>
    var threshold: int
    var showIndie: bool
    var processedData: seq<Bubble>
    var title: string
    /** Number of "Select a publisher" messages in the container. */
    var noDataMessages: nat

    /** What the last `updateVis` on non-empty data left behind. */
    predicate Rendered()
      reads this`data, this`processedData, this`threshold, this`showIndie, this`title
    {
      data != [] && processedData == Processed(data, threshold, showIndie) && title == ChartTitle(data)
    }

    /** The view starts without a message and draws its data once, as its first `updateVis`. */
    constructor (data: seq<Game>)
      ensures this.data == data && selectedGameId == None && threshold == 0 && showIndie
      ensures data != [] ==> Rendered() && noDataMessages == 0
      ensures data == [] ==> processedData == [] && noDataMessages == 1
    {
      this.data := data;
      selectedGameId := None;
      threshold := 0;
      showIndie := true;
      if data == [] {
        processedData := [];
        title := InitialTitle;
        noDataMessages := 1;
      } else {
        var processed := ProcessData(data, 0, true);
        processedData := processed;
        title := ChartTitle(data);
        noDataMessages := 0;
      }
    }

    /**
     * Redraw. Empty data only adds one more no-data message and keeps the old
     * bubbles; otherwise one message is removed and the bubbles recomputed.
     */
    method UpdateVis()
      modifies this`processedData, this`title, this`noDataMessages
      ensures data == [] ==> (noDataMessages == old(noDataMessages) + 1
        && processedData == old(processedData) && title == old(title))
      ensures data != [] ==> (Rendered()
        && noDataMessages == (if old(noDataMessages) > 0 then old(noDataMessages) - 1 else 0))
    {
      if data == [] {
        noDataMessages := noDataMessages + 1;
        return;
      }
      if noDataMessages > 0 {
        noDataMessages := noDataMessages - 1;
      }
      processedData := ProcessData(data, threshold, showIndie);
      title := ChartTitle(data);
    }

    /** The `updatePeakCCUThreshold` listener. */
    method OnThreshold(t: int)
      modifies this`threshold, this`processedData, this`title, this`noDataMessages
      ensures threshold == t
      ensures data == [] ==> (noDataMessages == old(noDataMessages) + 1
        && processedData == old(processedData) && title == old(title))
      ensures data != [] ==> (Rendered()
        && noDataMessages == (if old(noDataMessages) > 0 then old(noDataMessages) - 1 else 0))
    {
      threshold := t;
      UpdateVis();
    }

    /** The `updateIndieVisibility` listener. */
    method OnIndieVisibility(show: bool)
      modifies this`showIndie, this`processedData, this`title, this`noDataMessages
      ensures showIndie == show
      ensures data == [] ==> (noDataMessages == old(noDataMessages) + 1
        && processedData == old(processedData) && title == old(title))
      ensures data != [] ==> (Rendered()
        && noDataMessages == (if old(noDataMessages) > 0 then old(noDataMessages) - 1 else 0))
    {
      showIndie := show;
      UpdateVis();
    }

    /** A click on a bubble: announces its id by `selectGame` and selects it. */
    method Click(b: Bubble) returns (announced: int)
      modifies this`selectedGameId
      ensures announced == b.appId && selectedGameId == Some(b.appId)
      ensures Outline(b, selectedGameId) == (3, 1.0)
    {
      announced := b.appId;
      selectedGameId := Some(b.appId);
    }

    /** Select the bubble of the given game, or none for null. */
    method HighlightGame(gameId: Option<int>)
      modifies this`selectedGameId
      ensures selectedGameId == gameId
      ensures forall b :: Outline(b, selectedGameId).0 == 3 <==> gameId == Some(b.appId)
    {
      selectedGameId := gameId;
    }
  }
}
