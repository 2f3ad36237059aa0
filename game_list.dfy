/**
 * The card carousel: the top 24 games by peak CCU of the selected publisher
 * (matched without regard to case) or of the indie category, four cards a
 * page, with circular page navigation and an auto-rotate interval that a
 * hover or a card click pauses.
 */
module GameList {
  import opened Games

  const GameListLimit: nat := 24
  const CardsPerPage: nat := 4
  const CardWidth: int := 300
  const CardMargin: int := 20
  /** Left edge of the strip of cards for page p is p * PageWidth + 6 pixels. */
  const PageWidth: int := (CardWidth + CardMargin) * CardsPerPage
  const IndieScope: string := "Indie"

  /** One element of `filteredData`/`topGames`. `price` is `+d.Price`, which may be NaN. */
  datatype Card = Card(appId: int, name: string, peakCCU: real, price: Num, publishers: string, isIndie: bool)

  function ToCard(g: Game): (c: Card)
    ensures c.appId == g.appId && c.peakCCU == Peak(g) && (c.isIndie <==> IsIndie(g))
  {
    Card(g.appId, g.name, Peak(g), g.price, g.publishers, IsIndie(g))
  }

  function PeakOf(c: Card): real
  {
    c.peakCCU
  }

  // ---------------------------------------------------------------------------
  // The filter pipeline

  /**
   * The publisher scope: no selection keeps every game, "Indie" the indie
   * ones, any other name the games whose non-empty publisher column equals
   * it after lower-casing both.
   */
  predicate InScope(g: Game, selected: Option<string>)
  {
    selected == None || selected == Some("")
    || (if selected == Some(IndieScope) then IsIndie(g)
        else g.publishers != "" && ToLower(g.publishers) == ToLower(selected.value))
  }

  predicate Shown(g: Game, selected: Option<string>, threshold: int, showIndie: bool)
  {
    && InScope(g, selected)
    && (threshold > 0 ==> Peak(g) >= threshold as real)
    && (showIndie || !IsIndie(g))
  }

  /** The cards that pass all filters, in data order. */
  function Kept(data: seq<Game>, selected: Option<string>, threshold: int, showIndie: bool): seq<Card>
  {
    Map(Filter(data, (g: Game) => Shown(g, selected, threshold, showIndie)), ToCard)
  }

  /** `filteredData` after `updateVis`: the kept cards sorted by peak CCU, largest first. */
  function SortedCards(data: seq<Game>, selected: Option<string>, threshold: int, showIndie: bool): seq<Card>
  {
    SortDesc(Kept(data, selected, threshold, showIndie), PeakOf)
  }

  /** `topGames` after `updateVis`. */
  function TopGames(data: seq<Game>, selected: Option<string>, threshold: int, showIndie: bool): seq<Card>
  {
    TopN(Kept(data, selected, threshold, showIndie), PeakOf, GameListLimit)
  }

  /** The top games are the first 24 of the sorted cards. */
  lemma TopGamesOfSorted(data: seq<Game>, selected: Option<string>, threshold: int, showIndie: bool)
    ensures var sorted := SortedCards(data, selected, threshold, showIndie);
      TopGames(data, selected, threshold, showIndie) == sorted[..Min(GameListLimit, |sorted|)]
  {
  }

  /** A kept card is the card of a game that is in scope and passes the threshold and indie filters. */
  lemma KeptMembers(data: seq<Game>, selected: Option<string>, threshold: int, showIndie: bool, c: Card)
    requires c in Kept(data, selected, threshold, showIndie)
    ensures exists g :: g in data && Shown(g, selected, threshold, showIndie) && ToCard(g) == c
  {
    var kept := Filter(data, (g: Game) => Shown(g, selected, threshold, showIndie));
    var i :| 0 <= i < |kept| && Map(kept, ToCard)[i] == c;
    assert kept[i] in kept;
  }

  /**
   * The top games: at most 24, largest peak first, each in scope and passing
   * the filters, and exactly the first 24 of the sorted list.
   */
  lemma TopGamesShape(data: seq<Game>, selected: Option<string>, threshold: int, showIndie: bool)
    ensures var top := TopGames(data, selected, threshold, showIndie);
      && |top| == Min(GameListLimit, |Kept(data, selected, threshold, showIndie)|)
      && SortedDesc(top, PeakOf)
      && top == SortedCards(data, selected, threshold, showIndie)[..|top|]
      && (forall c :: c in top ==>
            && (threshold > 0 ==> c.peakCCU >= threshold as real)
            && (showIndie || !c.isIndie)
            && (selected == Some(IndieScope) ==> c.isIndie))
  {
    var kept := Kept(data, selected, threshold, showIndie);
    var top := TopGames(data, selected, threshold, showIndie);
    TopNShape(kept, PeakOf, GameListLimit);
    forall c | c in top
      ensures && (threshold > 0 ==> c.peakCCU >= threshold as real)
              && (showIndie || !c.isIndie)
              && (selected == Some(IndieScope) ==> c.isIndie)
    {
      assert c in multiset(top);
      assert c in kept;
      KeptMembers(data, selected, threshold, showIndie, c);
    }
  }

  /** A named publisher's cards all carry that publisher, up to case. */
  lemma TopGamesPublisher(data: seq<Game>, selected: Option<string>, threshold: int, showIndie: bool, c: Card)
    requires selected.Some? && selected.value != "" && selected.value != IndieScope
    requires c in TopGames(data, selected, threshold, showIndie)
    ensures c.publishers != "" && ToLower(c.publishers) == ToLower(selected.value)
  {
    var kept := Kept(data, selected, threshold, showIndie);
    TopNShape(kept, PeakOf, GameListLimit);
    assert c in multiset(TopGames(data, selected, threshold, showIndie));
    KeptMembers(data, selected, threshold, showIndie, c);
  }

  /** The filter steps of `updateVis`, each a reassignment, as the source writes them. */
  method FilterCards(data: seq<Game>, selected: Option<string>, threshold: int, showIndie: bool)
    returns (cards: seq<Card>)
    ensures cards == Kept(data, selected, threshold, showIndie)
  {
    var scope := (g: Game) => InScope(g, selected);
    var filtered := data;
    if selected.Some? && selected.value != "" {
      var name := selected.value;
      if name == IndieScope {
        filtered := Filter(data, (g: Game) => g.category == "Indie");
      } else {
        filtered := Filter(data, (g: Game) => g.publishers != "" && ToLower(g.publishers) == ToLower(name));
      }
      FilterSame(data, if name == IndieScope then (g: Game) => g.category == "Indie"
        else (g: Game) => g.publishers != "" && ToLower(g.publishers) == ToLower(name), scope);
    } else {
      FilterAll(data, scope);
    }
    ghost var keep := scope;
    cards := Map(filtered, ToCard);
    if threshold > 0 {
      var reached := (c: Card) => c.peakCCU >= threshold as real;
      ghost var keep2 := (g: Game) => keep(g) && Peak(g) >= threshold as real;
      FilterMapFilter(data, keep, ToCard, reached, keep2);
      cards := Filter(cards, reached);
      keep := keep2;
    }
    if !showIndie {
      var notIndie := (c: Card) => !c.isIndie;
      ghost var keep2 := (g: Game) => keep(g) && !IsIndie(g);
      FilterMapFilter(data, keep, ToCard, notIndie, keep2);
      cards := Filter(cards, notIndie);
      keep := keep2;
    }
    FilterSame(data, keep, (g: Game) => Shown(g, selected, threshold, showIndie));
  }

  // ---------------------------------------------------------------------------
  // Pages

  /** `currentPage`: a page number, or NaN after a modulo by zero pages. */
  datatype PageIndex = Page(n: int) | NaNPage

  /** The argument of `navigateToPage`: "left", "right" or a page number from a dot. */
  datatype Direction = Left | Right | ToPage(n: int)

  /** `Math.ceil(count / 4)` */
  function TotalPages(count: nat): (r: nat)
    ensures (r - 1) * CardsPerPage < count <= r * CardsPerPage
    ensures r == 0 <==> count == 0
  {
    (count + CardsPerPage - 1) / CardsPerPage
  }

  /** JavaScript's `a % b`: NaN for b == 0, otherwise the remainder with the sign of a. */
  function JsRem(a: int, b: nat): (r: PageIndex)
    ensures b == 0 <==> r == NaNPage
    ensures b > 0 && a >= 0 ==> r == Page(a % b)
  {
    if b == 0 then NaNPage
    else if a >= 0 then Page(a % b)
    else Page(-((-a) % b))
  }

  /** The page after one navigation step among total pages. */
  function NextPage(current: PageIndex, dir: Direction, total: nat): PageIndex
  {
    match dir
    case ToPage(n) => Page(n)
    case Left => (match current
      case NaNPage => NaNPage
      case Page(p) => JsRem(p - 1 + total, total))
    case Right => (match current
      case NaNPage => NaNPage
      case Page(p) => JsRem(p + 1, total))
  }

  /** The quotient and remainder are the only ones with a remainder in [0, b). */
  lemma ModUnique(a: int, b: int, q: int, r: int)
    requires b > 0 && 0 <= r < b && a == q * b + r
    ensures a % b == r
  {
    var d := q - a / b;
    assert d * b == a % b - r;
    MulBound(d, b);
  }

  lemma MulBound(d: int, b: int)
    requires b > 0
    ensures d >= 1 ==> d * b >= b
    ensures d <= -1 ==> d * b <= -b
  {
  }

  /** With pages to show, the arrows move one page round the circle and stay on a page. */
  lemma ArrowsCircle(p: int, total: nat)
    requires 0 <= p < total
    ensures NextPage(Page(p), Right, total) == Page(if p + 1 == total then 0 else p + 1)
    ensures NextPage(Page(p), Left, total) == Page(if p == 0 then total - 1 else p - 1)
    ensures NextPage(NextPage(Page(p), Right, total), Left, total) == Page(p)
    ensures NextPage(NextPage(Page(p), Left, total), Right, total) == Page(p)
  {
    forall k | 0 <= k < total
      ensures NextPage(Page(k), Right, total) == Page(if k + 1 == total then 0 else k + 1)
      ensures NextPage(Page(k), Left, total) == Page(if k == 0 then total - 1 else k - 1)
    {
      if k + 1 == total {
        ModUnique(k + 1, total, 1, 0);
      } else {
        ModUnique(k + 1, total, 0, k + 1);
      }
      if k == 0 {
        ModUnique(k - 1 + total, total, 0, total - 1);
      } else {
        ModUnique(k - 1 + total, total, 1, k - 1);
      }
    }
  }

  /** k presses of "right". */
  function Rights(current: PageIndex, total: nat, k: nat): PageIndex
  {
    if k == 0 then current else NextPage(Rights(current, total, k - 1), Right, total)
  }

  /** Pressing "right" as many times as there are pages comes back to the same page. */
  lemma RightRoundTrip(p: int, total: nat)
    requires 0 <= p < total
    ensures Rights(Page(p), total, total) == Page(p)
  {
    RightsAdd(p, total, total);
    ModUnique(p + total, total, 1, p);
  }

  lemma {:induction false} RightsAdd(p: int, total: nat, k: nat)
    requires 0 <= p < total
    ensures Rights(Page(p), total, k) == Page((p + k) % total)
  {
    if k == 0 {
      ModUnique(p, total, 0, p);
    } else {
      RightsAdd(p, total, k - 1);
      ModSucc(p + k - 1, total);
    }
  }

  /** One more step of a remainder: (a % b + 1) % b == (a + 1) % b. */
  lemma ModSucc(a: nat, total: nat)
    requires total > 0
    ensures 0 <= a % total < total
    ensures (a % total + 1) % total == (a + 1) % total
  {
    var q, r := a / total, a % total;
    assert a == q * total + r;
    if r + 1 < total {
      ModUnique(a + 1, total, q, r + 1);
      ModUnique(r + 1, total, 0, r + 1);
    } else {
      assert a + 1 == (q + 1) * total;
      ModUnique(a + 1, total, q + 1, 0);
      ModUnique(r + 1, total, 1, 0);
    }
  }

  /** With no cards the arrows take a modulo by zero: the page becomes NaN and stays NaN. */
  lemma EmptyCarousel(current: PageIndex)
    ensures NextPage(current, Right, TotalPages(0)) == NaNPage
    ensures NextPage(current, Left, TotalPages(0)) == NaNPage
    ensures NextPage(NaNPage, Right, 0) == NaNPage && NextPage(NaNPage, Left, 0) == NaNPage
  {
  }

  /** `translateX`: p * (cardWidth + cardMargin) * cardsPerPage + 6, NaN for a NaN page. */
  function TranslateX(page: PageIndex): (x: Num)
    ensures page.Page? ==> x.Val? && x.v == (page.n * PageWidth + 6) as real
    ensures page == NaNPage ==> x == NaN
  {
    match page
    case NaNPage => NaN
    case Page(p) => Val((p * PageWidth + 6) as real)
  }

  /** Distinct pages have distinct offsets, growing with the page. */
  lemma TranslateXMonotone(p: int, q: int)
    requires p < q
    ensures TranslateX(Page(p)).v + PageWidth as real <= TranslateX(Page(q)).v
  {
  }

  /** The card style: opacity 1 and a 3px border for the selected game, 0.8 and none otherwise. */
  function CardStyle(c: Card, selected: Option<int>): (s: (real, int))
    ensures s.0 == 1.0 <==> selected == Some(c.appId)
    ensures s.1 == 3 <==> selected == Some(c.appId)
    ensures s.1 == 0 <==> selected != Some(c.appId)
  {
    if selected == Some(c.appId) then (1.0, 3) else (0.8, 0)
  }

  // ---------------------------------------------------------------------------
  // The view

  /** The cards `updateVis` leaves behind for the given data and filters. */
  predicate CardsOf(data: seq<Game>, selected: Option<string>, threshold: int, showIndie: bool,
                    filtered: seq<Card>, top: Option<seq<Card>>)
  {
    filtered == SortedCards(data, selected, threshold, showIndie)
    && top == Some(TopGames(data, selected, threshold, showIndie))
  }

  class GameListView {
    var data: seq<Game>
    var selectedGameId: Option<int>
    var selectedPublisher: Option<string>
    var threshold: int
    var showIndie: bool
    var filteredData: seq<Card>
    /** None until the first `updateVis` on non-empty data. */
    var topGames: Option<seq<Card>>
    var currentPage: PageIndex
    var translateX: Num
    var isAutoRotatePaused: bool
    /** The interval id held in `autoRotateTimer` (ids are positive, so truthy). */
    var autoRotateTimer: Option<nat>
    /** The intervals armed and not cleared. */
    var liveTimers: set<nat>
    var nextTimerId: nat

    /** At most one interval is live, the one the view holds; it exists only once there are cards. */
    predicate Valid()
      reads this`nextTimerId, this`liveTimers, this`autoRotateTimer, this`topGames
    {
      && nextTimerId > 0
      && liveTimers == (if autoRotateTimer.Some? then {autoRotateTimer.value} else {})
      && (autoRotateTimer.Some? ==> 0 < autoRotateTimer.value < nextTimerId && topGames.Some?)
    }

    /** What the last `updateVis` on non-empty data left behind. */
    predicate Rendered()
      reads this`data, this`filteredData, this`topGames, this`selectedPublisher, this`threshold, this`showIndie
    {
      data != [] && CardsOf(data, selectedPublisher, threshold, showIndie, filteredData, topGames)
    }

    constructor (data: seq<Game>)
      ensures Valid()
      ensures this.data == data && selectedGameId == None && selectedPublisher == None
      ensures threshold == 0 && showIndie && filteredData == [] && topGames == None
      ensures currentPage == Page(0) && !isAutoRotatePaused && autoRotateTimer == None && liveTimers == {}
    {
      this.data := data;
      selectedGameId := None;
      selectedPublisher := None;
      threshold := 0;
      showIndie := true;
      filteredData := [];
      topGames := None;
      currentPage := Page(0);
      translateX := Val(0.0);
      isAutoRotatePaused := false;
      autoRotateTimer := None;
      liveTimers := {};
      nextTimerId := 1;
    }

    /**
     * Recompute the cards, go back to the first page and restart the
     * rotation; with no data nothing changes.
     */
    method UpdateVis()
      requires Valid()
      modifies this`filteredData, this`topGames, this`currentPage, this`translateX
      modifies this`autoRotateTimer, this`liveTimers, this`nextTimerId
      ensures Valid()
      ensures data != [] ==> Rendered() && currentPage == Page(0) && autoRotateTimer == Some(old(nextTimerId))
      ensures data == [] ==> unchanged(this)
    {
      if data == [] {
        return;
      }
      var cards := FilterCards(data, selectedPublisher, threshold, showIndie);
      var sorted := SortDesc(cards, PeakOf);
      TopGamesOfSorted(data, selectedPublisher, threshold, showIndie);
      ShowCards(sorted);
    }

    /**
     * Keep the sorted cards and their first 24, go back to the first page and
     * arm a fresh interval.
     */
    method ShowCards(sorted: seq<Card>)
      requires Valid()
      modifies this`filteredData, this`topGames, this`currentPage, this`translateX
      modifies this`autoRotateTimer, this`liveTimers, this`nextTimerId
      ensures Valid()
      ensures filteredData == sorted && topGames == Some(sorted[..Min(GameListLimit, |sorted|)])
      ensures currentPage == Page(0) && translateX == Val(6.0) && autoRotateTimer == Some(old(nextTimerId))
    {
      filteredData := sorted;
      topGames := Some(filteredData[..Min(GameListLimit, |filteredData|)]);
      currentPage := Page(0);
      var ok := NavigateToPage(ToPage(currentPage.n));
      StartAutoRotate();
    }

    /**
     * `navigateToPage`: move one page round the circle or to a given page and
     * recompute the offset. Before there are any cards the source reads the
     * length of an undefined list and throws: ok is false and nothing changes.
     */
    method NavigateToPage(dir: Direction) returns (ok: bool)
      modifies this`currentPage, this`translateX
      ensures ok <==> topGames.Some?
      ensures ok ==> (currentPage == NextPage(old(currentPage), dir, TotalPages(|topGames.value|))
        && translateX == TranslateX(currentPage))
      ensures !ok ==> currentPage == old(currentPage) && translateX == old(translateX)
    {
      if topGames.None? {
        return false;
      }
      var totalPages := TotalPages(|topGames.value|);
      match dir {
        case Left =>
          if currentPage.Page? {
            currentPage := JsRem(currentPage.n - 1 + totalPages, totalPages);
          }
        case Right =>
          if currentPage.Page? {
            currentPage := JsRem(currentPage.n + 1, totalPages);
          }
        case ToPage(n) =>
          currentPage := Page(n);
      }
      translateX := TranslateX(currentPage);
      ok := true;
    }

    /** Clear the held interval, if any, and arm a new one. */
    method StartAutoRotate()
      requires Valid() && topGames.Some?
      modifies this`autoRotateTimer, this`liveTimers, this`nextTimerId
      ensures Valid()
      ensures autoRotateTimer == Some(old(nextTimerId)) && liveTimers == {old(nextTimerId)}
    {
      if autoRotateTimer.Some? {
        liveTimers := liveTimers - {autoRotateTimer.value};
      }
      autoRotateTimer := Some(nextTimerId);
      liveTimers := liveTimers + {nextTimerId};
      nextTimerId := nextTimerId + 1;
    }

    method PauseAutoRotate()
      modifies this`isAutoRotatePaused
      ensures isAutoRotatePaused
    {
      isAutoRotatePaused := true;
    }

    method ResumeAutoRotate()
      modifies this`isAutoRotatePaused
      ensures !isAutoRotatePaused
    {
      isAutoRotatePaused := false;
    }

    /** Clear the held interval; a second call changes nothing. */
    method StopAutoRotate()
      requires Valid()
      modifies this`autoRotateTimer, this`liveTimers
      ensures Valid()
      ensures autoRotateTimer == None && liveTimers == {}
      ensures old(autoRotateTimer) == None ==> liveTimers == old(liveTimers)
    {
      if autoRotateTimer.Some? {
        liveTimers := liveTimers - {autoRotateTimer.value};
        autoRotateTimer := None;
      }
    }

    /** The auto-rotate interval fires: one page right unless paused. */
    method Tick(timer: nat)
      requires Valid() && timer in liveTimers
      modifies this`currentPage, this`translateX
      ensures Valid()
      ensures isAutoRotatePaused ==> currentPage == old(currentPage)
      ensures !isAutoRotatePaused ==>
        currentPage == NextPage(old(currentPage), Right, TotalPages(|topGames.value|))
    {
      if !isAutoRotatePaused {
        var ok := NavigateToPage(Right);
      }
    }

    /** A click on an arrow: navigate, then restart the interval for a full period. */
    method ArrowClick(dir: Direction)
      requires Valid() && (dir == Left || dir == Right)
      modifies this`currentPage, this`translateX, this`autoRotateTimer, this`liveTimers, this`nextTimerId
      ensures Valid()
      ensures topGames.Some? ==> (currentPage == NextPage(old(currentPage), dir, TotalPages(|topGames.value|))
        && autoRotateTimer == Some(old(nextTimerId)))
      ensures topGames.None? ==> currentPage == old(currentPage) && autoRotateTimer == old(autoRotateTimer)
    {
      var ok := NavigateToPage(dir);
      if ok {
        StartAutoRotate();
      }
    }

    /** A click on a card: announce it by `selectGame`, select it and pause the rotation. */
    method CardClick(c: Card) returns (announced: int)
      modifies this`selectedGameId, this`isAutoRotatePaused
      ensures announced == c.appId && selectedGameId == Some(c.appId) && isAutoRotatePaused
      ensures CardStyle(c, selectedGameId) == (1.0, 3)
    {
      announced := c.appId;
      selectedGameId := Some(c.appId);
      PauseAutoRotate();
    }

    /** The `selectPublisher` listener (None for null). */
    method FilterByPublisher(publisherName: Option<string>)
      requires Valid()
      modifies this`selectedPublisher, this`filteredData, this`topGames, this`currentPage, this`translateX
      modifies this`autoRotateTimer, this`liveTimers, this`nextTimerId
      ensures Valid() && selectedPublisher == publisherName
      ensures data != [] ==> Rendered() && currentPage == Page(0) && autoRotateTimer == Some(old(nextTimerId))
      ensures data == [] ==> unchanged(this`filteredData, this`topGames, this`currentPage, this`translateX,
        this`autoRotateTimer, this`liveTimers, this`nextTimerId)
    {
      selectedPublisher := publisherName;
      UpdateVis();
    }

    /** The `updatePeakCCUThreshold` listener. */
    method OnThreshold(t: int)
      requires Valid()
      modifies this`threshold, this`filteredData, this`topGames, this`currentPage, this`translateX
      modifies this`autoRotateTimer, this`liveTimers, this`nextTimerId
      ensures Valid() && threshold == t
      ensures data != [] ==> Rendered() && currentPage == Page(0) && autoRotateTimer == Some(old(nextTimerId))
      ensures data == [] ==> unchanged(this`filteredData, this`topGames, this`currentPage, this`translateX,
        this`autoRotateTimer, this`liveTimers, this`nextTimerId)
    {
      threshold := t;
      UpdateVis();
    }

    /** The `updateIndieVisibility` listener. */
    method OnIndieVisibility(show: bool)
      requires Valid()
      modifies this`showIndie, this`filteredData, this`topGames, this`currentPage, this`translateX
      modifies this`autoRotateTimer, this`liveTimers, this`nextTimerId
      ensures Valid() && showIndie == show
      ensures data != [] ==> Rendered() && currentPage == Page(0) && autoRotateTimer == Some(old(nextTimerId))
      ensures data == [] ==> unchanged(this`filteredData, this`topGames, this`currentPage, this`translateX,
        this`autoRotateTimer, this`liveTimers, this`nextTimerId)
    {
      showIndie := show;
      UpdateVis();
    }

    /** Select the card of the given game (None for null); only the styling changes. */
    method HighlightGame(gameId: Option<int>)
      modifies this`selectedGameId
      ensures selectedGameId == gameId
    {
      selectedGameId := gameId;
    }
  }
}
