/**
 * The price/revenue scatter plot: the games of the selected publisher (or of
 * the indie category, or all games), filtered by the shared peak-CCU
 * threshold and the indie toggle, then drawn where price and revenue are
 * usable, prices above 100 held at 100 and coloured apart.
 */
module ScatterPlot {
  import opened Games

  /** Prices above this are drawn at this price, in orange. */
  const PriceCap: real := 100.0
  /** The upper end of the price axis. */
  const XDomainMax: real := 80.0
  /** The publisher selection that stands for the indie category. */
  const IndieScope: string := "Indie"

  datatype Colour = Orange | Red | Blue

  /** One element of `processedData`. `price` is `+d.Price`, which may be NaN. */
  datatype Point = Point(id: int, name: string, price: Num, revenue: real, publisher: string,
                         peakCCU: real, reviewRatio: real, isIndie: bool)

  /** The record mapping; a missing or non-numeric revenue becomes 0. */
  function ToPoint(g: Game): (p: Point)
    ensures p.revenue == OrZero(g.revenue) && p.price == g.price && p.id == g.appId
    ensures p.isIndie <==> IsIndie(g)
  {
    Point(g.appId, g.name, g.price, OrZero(g.revenue), g.publishers, Peak(g), ReviewRatio(g), IsIndie(g))
  }

  /**
   * The publisher scope: no selection (null or the empty string) keeps every
   * game, "Indie" keeps the indie ones, any other name the games whose whole
   * publisher column is exactly that name.
   */
  predicate InScope(g: Game, selected: Option<string>)
  {
    selected == None || selected == Some("")
    || (if selected == Some(IndieScope) then IsIndie(g) else Some(g.publishers) == selected)
  }

  /** The threshold (when set) and indie filters. */
  predicate Passes(peak: real, isIndie: bool, threshold: int, showIndie: bool)
  {
    (threshold > 0 ==> peak >= threshold as real) && (showIndie || !isIndie)
  }

  predicate Shown(g: Game, selected: Option<string>, threshold: int, showIndie: bool)
  {
    InScope(g, selected) && Passes(Peak(g), IsIndie(g), threshold, showIndie)
  }

  /** `processedData` after `updateVis` on non-empty data, as one filter and one map. */
  function Processed(data: seq<Game>, selected: Option<string>, threshold: int, showIndie: bool): seq<Point>
  {
    Map(Filter(data, (g: Game) => Shown(g, selected, threshold, showIndie)), ToPoint)
  }

  /** A point is drawn from the data exactly when its game is in scope and passes both filters. */
  lemma ProcessedMembers(data: seq<Game>, selected: Option<string>, threshold: int, showIndie: bool, g: Game)
    requires g in data
    ensures Shown(g, selected, threshold, showIndie) ==> ToPoint(g) in Processed(data, selected, threshold, showIndie)
    ensures forall p :: p in Processed(data, selected, threshold, showIndie) ==>
      Passes(p.peakCCU, p.isIndie, threshold, showIndie)
  {
    var kept := Filter(data, (g: Game) => Shown(g, selected, threshold, showIndie));
    if Shown(g, selected, threshold, showIndie) {
      var i :| 0 <= i < |kept| && kept[i] == g;
      assert Map(kept, ToPoint)[i] == ToPoint(g);
    }
  }

  /** With the indie selection only indie games are drawn; with a name, only that publisher's. */
  lemma ProcessedScope(data: seq<Game>, selected: Option<string>, threshold: int, showIndie: bool)
    ensures selected == Some(IndieScope) ==>
      forall p :: p in Processed(data, selected, threshold, showIndie) ==> p.isIndie
    ensures selected.Some? && selected.value != "" && selected.value != IndieScope ==>
      forall p :: p in Processed(data, selected, threshold, showIndie) ==> p.publisher == selected.value
  {
    var kept := Filter(data, (g: Game) => Shown(g, selected, threshold, showIndie));
    forall p | p in Processed(data, selected, threshold, showIndie)
      ensures exists g :: g in kept && p == ToPoint(g)
    {
      var i :| 0 <= i < |kept| && Map(kept, ToPoint)[i] == p;
      assert kept[i] in kept;
    }
  }

  /** The steps of `updateVis`, each a reassignment, as the source writes them. */
  method ProcessData(data: seq<Game>, selected: Option<string>, threshold: int, showIndie: bool)
    returns (processed: seq<Point>)
    ensures processed == Processed(data, selected, threshold, showIndie)
  {
    var scope := (g: Game) => InScope(g, selected);
    var dataToUse := data;
    if selected.Some? && selected.value != "" {
      var name := selected.value;
      if name == IndieScope {
        dataToUse := Filter(data, (g: Game) => g.category == "Indie");
      } else {
        dataToUse := Filter(data, (g: Game) => g.publishers == name);
      }
      FilterSame(data, if name == IndieScope then (g: Game) => g.category == "Indie" else (g: Game) => g.publishers == name, scope);
    } else {
      FilterAll(data, scope);
    }
    ghost var keep := scope;
    processed := Map(dataToUse, ToPoint);
    if threshold > 0 {
      var reached := (p: Point) => p.peakCCU >= threshold as real;
      ghost var keep2 := (g: Game) => keep(g) && Peak(g) >= threshold as real;
      FilterMapFilter(data, keep, ToPoint, reached, keep2);
      processed := Filter(processed, reached);
      keep := keep2;
    }
    if !showIndie {
      var notIndie := (p: Point) => !p.isIndie;
      ghost var keep2 := (g: Game) => keep(g) && !IsIndie(g);
      FilterMapFilter(data, keep, ToPoint, notIndie, keep2);
      processed := Filter(processed, notIndie);
      keep := keep2;
    }
    FilterSame(data, keep, (g: Game) => Shown(g, selected, threshold, showIndie));
  }

  // ---------------------------------------------------------------------------
  // Drawing

  /** Drawable: a price that is a number and not negative, and a positive revenue. */
  predicate IsValid(p: Point)
  {
    p.price.Val? && p.price.v >= 0.0 && p.revenue > 0.0
  }

  function ValidData(points: seq<Point>): (r: seq<Point>)
    ensures forall p :: p in r <==> p in points && IsValid(p)
  {
    Filter(points, (p: Point) => IsValid(p))
  }

  predicate OverPrice(p: Point)
  {
    p.price.Val? && p.price.v > PriceCap
  }

  /** How many drawn games are priced above the cap. */
  function OverPriceLimit(valid: seq<Point>): (n: nat)
    ensures n <= |valid|
    ensures n == 0 <==> forall p :: p in valid ==> !OverPrice(p)
  {
    var over := Filter(valid, (p: Point) => OverPrice(p));
    assert over != [] ==> over[0] in over;
    |over|
  }

  /** Horizontal place, stroke and colours of one point (jitter left out). */
  datatype Mark = Mark(x: real, fill: Colour, opacity: real, strokeWidth: int)

  /** `xScale(Math.min(price, 100))` as a fraction of the width, over the domain [0, 80]. */
  function XFraction(price: real): real
  {
    Capped(price) / XDomainMax
  }

  /** `Math.min(price, 100)` */
  function Capped(price: real): real
  {
    if price <= PriceCap then price else PriceCap
  }

  function MarkOf(p: Point, selected: Option<int>): (m: Mark)
    requires IsValid(p)
    ensures m.fill == Orange <==> p.price.v > PriceCap
    ensures m.fill == Red <==> p.price.v <= PriceCap && selected == Some(p.id)
    ensures m.opacity == 1.0 <==> selected == Some(p.id)
    ensures m.strokeWidth == 2 <==> selected == Some(p.id)
    ensures 0.0 <= m.x <= PriceCap / XDomainMax
  {
    var isSelected := selected == Some(p.id);
    Mark(XFraction(p.price.v),
         if p.price.v > PriceCap then Orange else if isSelected then Red else Blue,
         if isSelected then 1.0 else 0.3,
         if isSelected then 2 else 0)
  }

  /**
   * Every price at or above the cap is drawn at the same place, and any price
   * above 80 lands past the right end of the axis.
   */
  lemma PriceCapPlacement(p: Point, q: Point, selected: Option<int>)
    requires IsValid(p) && IsValid(q)
    ensures p.price.v >= PriceCap && q.price.v >= PriceCap ==> MarkOf(p, selected).x == MarkOf(q, selected).x
    ensures p.price.v > XDomainMax <==> MarkOf(p, selected).x > 1.0
    ensures p.price.v <= q.price.v ==> MarkOf(p, selected).x <= MarkOf(q, selected).x
  {
  }

  function Marks(valid: seq<Point>, selected: Option<int>): (r: seq<Mark>)
    requires forall p :: p in valid ==> IsValid(p)
    ensures |r| == |valid|
    ensures forall i :: 0 <= i < |r| ==> r[i] == MarkOf(valid[i], selected)
  {
    seq(|valid|, i requires 0 <= i < |valid| => MarkOf(valid[i], selected))
  }

  // ---------------------------------------------------------------------------
  // The view

  class ScatterPlotView {
    var data: seq<Game>
    var selectedGameId: Option<int>
    var selectPublisher: Option<string>
    var threshold: int
    var showIndie: bool
    var processedData: seq<Point>
    var validData: seq<Point>
    var overPriceLimit: nat
    var marks: seq<Mark>

    /** What `renderVis` leaves behind. */
    predicate Drawn()
      reads this`validData, this`processedData, this`overPriceLimit, this`marks, this`selectedGameId
    {
      && validData == ValidData(processedData)
      && overPriceLimit == OverPriceLimit(validData)
      && marks == Marks(validData, selectedGameId)
    }

    /** What the last `updateVis` on non-empty data left behind. */
    predicate Rendered()
      reads this`data, this`processedData, this`selectPublisher, this`threshold, this`showIndie
      reads this`validData, this`overPriceLimit, this`marks, this`selectedGameId
    {
      data != [] && processedData == Processed(data, selectPublisher, threshold, showIndie) && Drawn()
    }

    /** Nothing is drawn until the first `updateVis`. */
    constructor (data: seq<Game>)
      ensures this.data == data && selectedGameId == None && selectPublisher == None
      ensures threshold == 0 && showIndie
      ensures processedData == [] && validData == [] && marks == [] && overPriceLimit == 0
    {
      this.data := data;
      selectedGameId := None;
      selectPublisher := None;
      threshold := 0;
      showIndie := true;
      processedData := [];
      validData := [];
      overPriceLimit := 0;
      marks := [];
    }

    /** Recompute the points; with no data nothing changes. */
    method UpdateVis()
      modifies this`processedData, this`validData, this`overPriceLimit, this`marks
      ensures data != [] ==> Rendered()
      ensures data == [] ==> (processedData == old(processedData) && validData == old(validData)
        && overPriceLimit == old(overPriceLimit) && marks == old(marks))
    {
      if data == [] {
        return;
      }
      processedData := ProcessData(data, selectPublisher, threshold, showIndie);
      RenderVis();
    }

    method RenderVis()
      modifies this`validData, this`overPriceLimit, this`marks
      ensures Drawn()
    {
      validData := ValidData(processedData);
      overPriceLimit := OverPriceLimit(validData);
      marks := Marks(validData, selectedGameId);
    }

    /** The `updatePeakCCUThreshold` listener. */
    method OnThreshold(t: int)
      modifies this`threshold, this`processedData, this`validData, this`overPriceLimit, this`marks
      ensures threshold == t
      ensures data != [] ==> Rendered()
      ensures data == [] ==> (processedData == old(processedData) && validData == old(validData)
        && overPriceLimit == old(overPriceLimit) && marks == old(marks))
    {
      threshold := t;
      UpdateVis();
    }

    /** The `updateIndieVisibility` listener. */
    method OnIndieVisibility(show: bool)
      modifies this`showIndie, this`processedData, this`validData, this`overPriceLimit, this`marks
      ensures showIndie == show
      ensures data != [] ==> Rendered()
      ensures data == [] ==> (processedData == old(processedData) && validData == old(validData)
        && overPriceLimit == old(overPriceLimit) && marks == old(marks))
    {
      showIndie := show;
      UpdateVis();
    }

    /** The `selectPublisher` listener (None for null). */
    method FilterByPublisher(publisherName: Option<string>)
      modifies this`selectPublisher, this`processedData, this`validData, this`overPriceLimit, this`marks
      ensures selectPublisher == publisherName
      ensures data != [] ==> Rendered()
      ensures data == [] ==> (processedData == old(processedData) && validData == old(validData)
        && overPriceLimit == old(overPriceLimit) && marks == old(marks))
    {
      selectPublisher := publisherName;
      UpdateVis();
    }

    /** Select the point of the given game (None for null) and redraw. */
    method HighlightGame(gameId: Option<int>)
      modifies this`selectedGameId, this`processedData, this`validData, this`overPriceLimit, this`marks
      ensures selectedGameId == gameId
      ensures data != [] ==> Rendered()
      ensures data == [] ==> (processedData == old(processedData) && validData == old(validData)
        && overPriceLimit == old(overPriceLimit) && marks == old(marks))
    {
      selectedGameId := gameId;
      UpdateVis();
    }

    /** A click on a point announces its id by `selectGame`; the view itself changes only when the event comes back. */
    method Click(p: Point) returns (announced: int)
      ensures announced == p.id
    {
      announced := p.id;
    }
  }
}
