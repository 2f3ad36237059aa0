/**
 * The publisher bubble chart (js/publisherBubbleView.js): games are credited to
 * their publishers, indie games are pooled into one "Indie Games" bubble, the
 * publishers under the peak-CCU threshold of the slider are hidden, and the
 * bubbles are pushed into five horizontal bands by average review ratio.
 */
module PublisherBubble {
  import opened Games

  const MinThreshold: int := 5000
  const MaxThreshold: int := 100000
  const MinReviewRate: real := 0.5
  const MaxReviewRate: real := 0.992
  const ReviewRateDiff: real := MaxReviewRate - MinReviewRate

  /** Geometry of the slider track (x and width attributes of the track rectangle). */
  const TrackX: real := 135.0
  const TrackWidth: real := 130.0

  /** Name of the pooled indie bubble, stored as the selection when it is clicked. */
  const IndieBubbleName: string := "Indie Games"
  /** What a click on the indie bubble announces to the other views. */
  const IndieSelection: string := "Indie"

  /** One value of the publisher map while games are being credited. */
  datatype Acc = Acc(publisher: string, totalPeakCCU: real, totalReviewRatio: real, gameCount: real)

  /** One entry of `publisherData`. */
  datatype PublisherDatum = PublisherDatum(
    publisher: string,
    totalPeakCCU: real,
    averageReviewRatio: real,
    gameCount: int,
    isIndie: bool)

  /** The publisher map (in insertion order) and the three indie accumulators. */
  datatype AggState = AggState(entries: seq<Acc>, indiePeakCCU: real, indieReviewRatio: real, indieGameCount: nat)

  /** A node of the force simulation. */
  datatype Node = Node(publisher: string, peak: int, positiveReviewRate: real, gameCount: int, isIndie: bool)

  predicate NotIndie(g: Game)
  {
    !IsIndie(g)
  }

  /** Names a non-indie game is credited to: the comma-separated column, trimmed, or "Unknown" when it is empty. */
  function PublisherNames(g: Game): (names: seq<string>)
    ensures |names| >= 1
    ensures g.publishers != "" ==>
      && |names| == |Split(g.publishers, ',')|
      && forall i :: 0 <= i < |names| ==> names[i] == Trim(Split(g.publishers, ',')[i])
  {
    if g.publishers == "" then ["Unknown"]
    else TrimAll(Split(g.publishers, ','))
  }

  /** `parts.map(p => p.trim())` */
  function TrimAll(parts: seq<string>): (r: seq<string>)
    ensures |r| == |parts|
    ensures forall i :: 0 <= i < |parts| ==> r[i] == Trim(parts[i])
  {
    Map(parts, Trim)
  }

  // ---------------------------------------------------------------------------
  // Crediting games to publishers

  predicate DistinctPublishers(m: seq<Acc>)
  {
    forall i, j :: 0 <= i < j < |m| ==> m[i].publisher != m[j].publisher
  }

  predicate PositiveCounts(m: seq<Acc>)
  {
    forall i :: 0 <= i < |m| ==> m[i].gameCount > 0.0
  }

  /** `publisherMap.has(name)` / `get(name)`: the position of name's entry, or -1. */
  function IndexOf(m: seq<Acc>, name: string): (i: int)
    ensures -1 <= i < |m|
    ensures 0 <= i ==> m[i].publisher == name
    ensures i < 0 ==> forall j :: 0 <= j < |m| ==> m[j].publisher != name
  {
    if m == [] then -1
    else if m[0].publisher == name then 0
    else
      var k := IndexOf(m[1..], name);
      if k < 0 then -1 else k + 1
  }

  /** Add one publisher's share of a game: to its entry when there is one, else as a new last entry. */
  function Credit(m: seq<Acc>, name: string, peak: real, ratio: real, share: real): seq<Acc>
  {
    var i := IndexOf(m, name);
    if i >= 0 then
      m[i := Acc(m[i].publisher, m[i].totalPeakCCU + peak, m[i].totalReviewRatio + ratio, m[i].gameCount + share)]
    else
      m + [Acc(name, peak, ratio, share)]
  }

  /** Credit the same share to each of names, in order. */
  function CreditAll(m: seq<Acc>, names: seq<string>, peak: real, ratio: real, share: real): seq<Acc>
  {
    if names == [] then m
    else Credit(CreditAll(m, names[..|names| - 1], peak, ratio, share), names[|names| - 1], peak, ratio, share)
  }

  /** What the loop body does with one game. */
  function Step(st: AggState, g: Game, showIndie: bool): AggState
  {
    if IsIndie(g) && showIndie then
      st.(indiePeakCCU := st.indiePeakCCU + Peak(g),
          indieReviewRatio := st.indieReviewRatio + ReviewRatio(g),
          indieGameCount := st.indieGameCount + 1)
    else if IsIndie(g) then
      st
    else
      st.(entries := CreditAll(st.entries, PublisherNames(g), PeakShare(g), RatioShare(g), GameShare(g)))
  }

  /** `1 / n` */
  function Reciprocal(n: nat): (r: real)
    requires n > 0
    ensures 0.0 < r <= 1.0
  {
    1.0 / (n as real)
  }

  /** `x * share` */
  function Scaled(x: real, share: real): real
  {
    x * share
  }

  /** `1 / publishers.length`: the part of a game each of its publishers is credited with. */
  function GameShare(g: Game): real
  {
    Reciprocal(|PublisherNames(g)|)
  }

  /** `peakCCU * publisherShare` */
  function PeakShare(g: Game): real
  {
    Scaled(Peak(g), GameShare(g))
  }

  /** `reviewRatio * publisherShare` */
  function RatioShare(g: Game): real
  {
    Scaled(ReviewRatio(g), GameShare(g))
  }

  /** The state after crediting every game of data, in order. */
  function Accumulated(data: seq<Game>, showIndie: bool): AggState
  {
    if data == [] then AggState([], 0.0, 0.0, 0)
    else Step(Accumulated(data[..|data| - 1], showIndie), data[|data| - 1], showIndie)
  }

  lemma AccumulatedSnoc(data: seq<Game>, i: int, showIndie: bool)
    requires 0 <= i < |data|
    ensures Accumulated(data[..i + 1], showIndie) == Step(Accumulated(data[..i], showIndie), data[i], showIndie)
  {
    assert data[..i + 1][..i] == data[..i];
  }

  /** The map never holds two entries for one publisher, and every entry has a positive game count. */
  lemma {:induction false} AccumulatedWellFormed(data: seq<Game>, showIndie: bool)
    ensures DistinctPublishers(Accumulated(data, showIndie).entries)
    ensures PositiveCounts(Accumulated(data, showIndie).entries)
  {
    if data != [] {
      var prev := Accumulated(data[..|data| - 1], showIndie);
      var g := data[|data| - 1];
      AccumulatedWellFormed(data[..|data| - 1], showIndie);
      if NotIndie(g) {
        CreditAllKeeps(prev.entries, PublisherNames(g), PeakShare(g), RatioShare(g), GameShare(g));
      }
    }
  }

  lemma CreditUnfold(m: seq<Acc>, name: string, k: int, peak: real, ratio: real, share: real)
    requires k == IndexOf(m, name)
    ensures k >= 0 ==> (Credit(m, name, peak, ratio, share) ==
      m[k := Acc(m[k].publisher, m[k].totalPeakCCU + peak, m[k].totalReviewRatio + ratio, m[k].gameCount + share)])
    ensures k < 0 ==> Credit(m, name, peak, ratio, share) == m + [Acc(name, peak, ratio, share)]
  {
  }

  lemma CreditAllSnoc(m: seq<Acc>, names: seq<string>, j: int, peak: real, ratio: real, share: real)
    requires 0 <= j < |names|
    ensures CreditAll(m, names[..j + 1], peak, ratio, share) == Credit(CreditAll(m, names[..j], peak, ratio, share), names[j], peak, ratio, share)
  {
    assert names[..j + 1][..j] == names[..j];
  }

  lemma CreditKeeps(m: seq<Acc>, name: string, peak: real, ratio: real, share: real)
    requires DistinctPublishers(m)
    ensures DistinctPublishers(Credit(m, name, peak, ratio, share))
    ensures share > 0.0 && PositiveCounts(m) ==> PositiveCounts(Credit(m, name, peak, ratio, share))
  {
  }

  lemma {:induction false} CreditAllKeeps(m: seq<Acc>, names: seq<string>, peak: real, ratio: real, share: real)
    requires DistinctPublishers(m)
    ensures DistinctPublishers(CreditAll(m, names, peak, ratio, share))
    ensures share > 0.0 && PositiveCounts(m) ==> PositiveCounts(CreditAll(m, names, peak, ratio, share))
  {
    if names != [] {
      CreditAllKeeps(m, names[..|names| - 1], peak, ratio, share);
      CreditKeeps(CreditAll(m, names[..|names| - 1], peak, ratio, share), names[|names| - 1], peak, ratio, share);
    }
  }

  /**
   * The aggregation loop of `updateVis`: one pass over the games; an indie game
   * goes to the indie accumulators or is skipped, any other game is credited to
   * its publishers.
   */
  method Aggregate(data: seq<Game>, showIndie: bool) returns (st: AggState)
    ensures st == Accumulated(data, showIndie)
  {
    var entries: seq<Acc> := [];
    var indiePeakCCU := 0.0;
    var indieReviewRatio := 0.0;
    var indieGameCount: nat := 0;
    var i := 0;
    while i < |data|
      invariant 0 <= i <= |data|
      invariant AggState(entries, indiePeakCCU, indieReviewRatio, indieGameCount) == Accumulated(data[..i], showIndie)
    {
      var d := data[i];
      AccumulatedSnoc(data, i, showIndie);
      var isIndie := IsIndie(d);
      if isIndie && showIndie {
        indiePeakCCU := indiePeakCCU + Peak(d);
        indieReviewRatio := indieReviewRatio + ReviewRatio(d);
        indieGameCount := indieGameCount + 1;
      } else if !isIndie {
        entries := CreditPublishers(entries, d);
      }
      i := i + 1;
    }
    assert data[..i] == data;
    st := AggState(entries, indiePeakCCU, indieReviewRatio, indieGameCount);
  }

  /** The inner loop: each publisher of d gets its share, added to its entry or appended as a new one. */
  method CreditPublishers(entries0: seq<Acc>, d: Game) returns (entries: seq<Acc>)
    ensures entries == CreditAll(entries0, PublisherNames(d), PeakShare(d), RatioShare(d), GameShare(d))
  {
    entries := entries0;
    var publishers := PublisherNames(d);
    var peakCCU := Peak(d);
    var reviewRatio := ReviewRatio(d);
    ghost var share, peakShare, ratioShare := GameShare(d), PeakShare(d), RatioShare(d);
    var j := 0;
    while j < |publishers|
      invariant 0 <= j <= |publishers|
      invariant entries == CreditAll(entries0, publishers[..j], peakShare, ratioShare, share)
    {
      var publisherShare := Reciprocal(|publishers|);
      var publisherPeakCCU := Scaled(peakCCU, publisherShare);
      var publisherReviewRatio := Scaled(reviewRatio, publisherShare);
      entries := CreditPublisher(entries, publishers[j], publisherPeakCCU, publisherReviewRatio, publisherShare);
      CreditAllSnoc(entries0, publishers, j, peakShare, ratioShare, share);
      j := j + 1;
    }
    assert publishers[..j] == publishers;
  }

  /** One publisher's share of a game: the `has`/`get`/`set` on the map. */
  method CreditPublisher(entries0: seq<Acc>, name: string, peak: real, ratio: real, share: real) returns (entries: seq<Acc>)
    ensures entries == Credit(entries0, name, peak, ratio, share)
  {
    var k := IndexOf(entries0, name);
    if k >= 0 {
      var existing := entries0[k];
      entries := entries0[k := Acc(existing.publisher, existing.totalPeakCCU + peak,
        existing.totalReviewRatio + ratio, existing.gameCount + share)];
    } else {
      entries := entries0 + [Acc(name, peak, ratio, share)];
    }
    CreditUnfold(entries0, name, k, peak, ratio, share);
  }

  // ---------------------------------------------------------------------------
  // Sums over the map and over the games

  function AccPeak(a: Acc): real { a.totalPeakCCU }
  function AccRatio(a: Acc): real { a.totalReviewRatio }
  function AccGames(a: Acc): real { a.gameCount }

  function SumOf(m: seq<Acc>, f: Acc -> real): real
  {
    if m == [] then 0.0 else SumOf(m[..|m| - 1], f) + f(m[|m| - 1])
  }

  function SumGames(gs: seq<Game>, f: Game -> real): real
  {
    if gs == [] then 0.0 else SumGames(gs[..|gs| - 1], f) + f(gs[|gs| - 1])
  }

  lemma {:induction false} SumOfUpdate(m: seq<Acc>, i: int, a: Acc, f: Acc -> real)
    requires 0 <= i < |m|
    ensures SumOf(m[i := a], f) == SumOf(m, f) - f(m[i]) + f(a)
    decreases |m|
  {
    var u := m[i := a];
    if i < |m| - 1 {
      assert u[..|u| - 1] == m[..|m| - 1][i := a];
      SumOfUpdate(m[..|m| - 1], i, a, f);
    } else {
      assert u[..|u| - 1] == m[..|m| - 1];
    }
  }

  lemma SumOfAppend(m: seq<Acc>, a: Acc, f: Acc -> real)
    ensures SumOf(m + [a], f) == SumOf(m, f) + f(a)
  {
    assert (m + [a])[..|m|] == m;
  }

  /** Crediting adds exactly the credited amounts to the three map totals. */
  lemma CreditTotals(m: seq<Acc>, name: string, peak: real, ratio: real, share: real)
    ensures SumOf(Credit(m, name, peak, ratio, share), AccPeak) == SumOf(m, AccPeak) + peak
    ensures SumOf(Credit(m, name, peak, ratio, share), AccRatio) == SumOf(m, AccRatio) + ratio
    ensures SumOf(Credit(m, name, peak, ratio, share), AccGames) == SumOf(m, AccGames) + share
  {
    var i := IndexOf(m, name);
    var a := if i >= 0 then Acc(m[i].publisher, m[i].totalPeakCCU + peak, m[i].totalReviewRatio + ratio, m[i].gameCount + share)
      else Acc(name, peak, ratio, share);
    if i >= 0 {
      SumOfUpdate(m, i, a, AccPeak);
      SumOfUpdate(m, i, a, AccRatio);
      SumOfUpdate(m, i, a, AccGames);
    } else {
      SumOfAppend(m, a, AccPeak);
      SumOfAppend(m, a, AccRatio);
      SumOfAppend(m, a, AccGames);
    }
  }

  /** x added to itself n times. */
  function Times(n: nat, x: real): real
  {
    if n == 0 then 0.0 else Times(n - 1, x) + x
  }

  lemma {:induction false} TimesIsProduct(n: nat, x: real)
    ensures Times(n, x) == (n as real) * x
  {
    if n > 0 {
      TimesIsProduct(n - 1, x);
    }
  }

  lemma {:induction false} CreditAllTotals(m: seq<Acc>, names: seq<string>, peak: real, ratio: real, share: real)
    ensures SumOf(CreditAll(m, names, peak, ratio, share), AccPeak) == SumOf(m, AccPeak) + Times(|names|, peak)
    ensures SumOf(CreditAll(m, names, peak, ratio, share), AccRatio) == SumOf(m, AccRatio) + Times(|names|, ratio)
    ensures SumOf(CreditAll(m, names, peak, ratio, share), AccGames) == SumOf(m, AccGames) + Times(|names|, share)
  {
    if names != [] {
      var init := names[..|names| - 1];
      CreditAllTotals(m, init, peak, ratio, share);
      CreditTotals(CreditAll(m, init, peak, ratio, share), names[|names| - 1], peak, ratio, share);
    }
  }

  /** The shares of a game's publishers add back up to the whole game. */
  lemma SharesAddUp(g: Game)
    ensures Times(|PublisherNames(g)|, PeakShare(g)) == Peak(g)
    ensures Times(|PublisherNames(g)|, RatioShare(g)) == ReviewRatio(g)
    ensures Times(|PublisherNames(g)|, GameShare(g)) == 1.0
  {
    var p := |PublisherNames(g)|;
    EqualPartsAddUp(p, Peak(g));
    EqualPartsAddUp(p, ReviewRatio(g));
    EqualPartsAddUp(p, 1.0);
    assert Scaled(1.0, Reciprocal(p)) == Reciprocal(p);
  }

  lemma EqualPartsAddUp(p: nat, x: real)
    requires p > 0
    ensures Times(p, Scaled(x, Reciprocal(p))) == x
  {
    TimesIsProduct(p, Scaled(x, Reciprocal(p)));
    var q := p as real;
    assert q * (1.0 / q) == 1.0;
    calc {
      q * (x * (1.0 / q));
      x * (q * (1.0 / q));
      x;
    }
  }

  lemma FilterLast(data: seq<Game>, p: Game -> bool)
    requires data != []
    ensures Filter(data, p) == Filter(data[..|data| - 1], p) + (if p(data[|data| - 1]) then [data[|data| - 1]] else [])
  {
  }

  lemma SumGamesLast(gs: seq<Game>, g: Game, f: Game -> real)
    ensures SumGames(gs + [g], f) == SumGames(gs, f) + f(g)
  {
    assert (gs + [g])[..|gs|] == gs;
  }

  /**
   * Conservation: the publisher map holds, in total, exactly the peak CCU, the
   * review ratio and the number of the non-indie games, however the games'
   * publishers overlap.
   */
  lemma {:induction false} AccumulatedTotals(data: seq<Game>, showIndie: bool)
    ensures var st := Accumulated(data, showIndie);
      && SumOf(st.entries, AccPeak) == SumGames(Filter(data, NotIndie), Peak)
      && SumOf(st.entries, AccRatio) == SumGames(Filter(data, NotIndie), ReviewRatio)
      && SumOf(st.entries, AccGames) == |Filter(data, NotIndie)| as real
  {
    if data != [] {
      var init := data[..|data| - 1];
      var g := data[|data| - 1];
      AccumulatedTotals(init, showIndie);
      FilterLast(data, NotIndie);
      var prev := Accumulated(init, showIndie);
      if NotIndie(g) {
        CreditAllTotals(prev.entries, PublisherNames(g), PeakShare(g), RatioShare(g), GameShare(g));
        SharesAddUp(g);
        SumGamesLast(Filter(init, NotIndie), g, Peak);
        SumGamesLast(Filter(init, NotIndie), g, ReviewRatio);
      }
    }
  }

  /**
   * Indie games never reach the publisher map: the map is the one the non-indie
   * games alone produce. With the indie bubble shown they are pooled into the
   * indie accumulators; with it hidden they are dropped.
   */
  lemma {:induction false} AccumulatedIndie(data: seq<Game>, showIndie: bool)
    ensures var st := Accumulated(data, showIndie);
      && st.entries == Accumulated(Filter(data, NotIndie), showIndie).entries
      && st.indieGameCount == (if showIndie then |Filter(data, IsIndie)| else 0)
      && st.indiePeakCCU == (if showIndie then SumGames(Filter(data, IsIndie), Peak) else 0.0)
      && st.indieReviewRatio == (if showIndie then SumGames(Filter(data, IsIndie), ReviewRatio) else 0.0)
  {
    if data != [] {
      var init := data[..|data| - 1];
      var g := data[|data| - 1];
      AccumulatedIndie(init, showIndie);
      FilterLast(data, NotIndie);
      FilterLast(data, IsIndie);
      var kept := Filter(init, NotIndie);
      if NotIndie(g) {
        var fk := kept + [g];
        assert Filter(data, NotIndie) == fk;
        assert fk[..|fk| - 1] == kept;
        StepEntries(Accumulated(init, showIndie), Accumulated(kept, showIndie), g, showIndie);
      } else if showIndie {
        SumGamesLast(Filter(init, IsIndie), g, Peak);
        SumGamesLast(Filter(init, IsIndie), g, ReviewRatio);
      }
    }
  }

  /** The map after a step depends only on the map before it. */
  lemma StepEntries(a: AggState, b: AggState, g: Game, showIndie: bool)
    requires a.entries == b.entries
    ensures Step(a, g, showIndie).entries == Step(b, g, showIndie).entries
  {
  }

  /** With distinct names, crediting them into an empty map makes one entry per name, in order. */
  lemma {:induction false} CreditAllFresh(names: seq<string>, peak: real, ratio: real, share: real)
    requires forall i, j :: 0 <= i < j < |names| ==> names[i] != names[j]
    ensures CreditAll([], names, peak, ratio, share) == Map(names, n => Acc(n, peak, ratio, share))
  {
    if names != [] {
      var init := names[..|names| - 1];
      CreditAllFresh(init, peak, ratio, share);
      var m := CreditAll([], init, peak, ratio, share);
      assert forall j :: 0 <= j < |m| ==> m[j].publisher == init[j];
      assert IndexOf(m, names[|names| - 1]) < 0;
    }
  }

  /**
   * A game with P distinct publishers, alone, credits each of them with 1/P of
   * its peak CCU, of its review ratio and of one game.
   */
  lemma SingleGameShares(g: Game, showIndie: bool)
    requires NotIndie(g)
    requires var names := PublisherNames(g); forall i, j :: 0 <= i < j < |names| ==> names[i] != names[j]
    ensures var names := PublisherNames(g);
      var st := Accumulated([g], showIndie);
      && |st.entries| == |names|
      && forall i :: 0 <= i < |names| ==>
        st.entries[i] == Acc(names[i], PeakShare(g), RatioShare(g), GameShare(g))
  {
    assert [g][..0] == [];
    CreditAllFresh(PublisherNames(g), PeakShare(g), RatioShare(g), GameShare(g));
  }

  /** A non-indie game with an empty publisher column is credited whole to "Unknown". */
  lemma UnknownCredited(g: Game, showIndie: bool)
    requires NotIndie(g) && g.publishers == ""
    ensures Accumulated([g], showIndie).entries == [Acc("Unknown", Peak(g), ReviewRatio(g), 1.0)]
  {
    assert [g][..0] == [];
    SharesAddUp(g);
    CreditAllFresh(PublisherNames(g), PeakShare(g), RatioShare(g), GameShare(g));
    assert Times(1, PeakShare(g)) == PeakShare(g);
  }

  /** Every name a game is credited to holds no comma and neither starts nor ends with white space. */
  lemma PublisherNamesClean(g: Game)
    ensures var names := PublisherNames(g);
      forall i :: 0 <= i < |names| ==>
        && ',' !in names[i]
        && (names[i] == [] || (!IsJsSpace(names[i][0]) && !IsJsSpace(names[i][|names[i]| - 1])))
  {
    if g.publishers != "" {
      var parts := Split(g.publishers, ',');
      forall i | 0 <= i < |parts|
        ensures ',' !in Trim(parts[i])
        ensures Trim(parts[i]) == [] || (!IsJsSpace(Trim(parts[i])[0]) && !IsJsSpace(Trim(parts[i])[|Trim(parts[i])| - 1]))
      {
        TrimIsInfix(parts[i]);
        TrimmedEnds(parts[i]);
      }
    }
  }

  /** When every game's review ratio is a fraction, so is every entry's ratio per game. */
  lemma {:induction false} AccumulatedRatioBound(data: seq<Game>, showIndie: bool)
    requires forall i :: 0 <= i < |data| ==> 0.0 <= ReviewRatio(data[i]) <= 1.0
    ensures var st := Accumulated(data, showIndie);
      && (forall i :: 0 <= i < |st.entries| ==> 0.0 <= st.entries[i].totalReviewRatio <= st.entries[i].gameCount)
      && 0.0 <= st.indieReviewRatio <= st.indieGameCount as real
  {
    if data != [] {
      var init := data[..|data| - 1];
      var g := data[|data| - 1];
      AccumulatedRatioBound(init, showIndie);
      if NotIndie(g) {
        ShareOfFraction(ReviewRatio(g), GameShare(g));
        assert RatioShare(g) == Scaled(ReviewRatio(g), GameShare(g));
        CreditAllRatioBound(Accumulated(init, showIndie).entries, PublisherNames(g), PeakShare(g), RatioShare(g), GameShare(g));
      }
    }
  }

  lemma ShareOfFraction(x: real, share: real)
    requires 0.0 <= x <= 1.0 && 0.0 < share
    ensures 0.0 <= Scaled(x, share) <= share
  {
  }

  predicate RatioWithinCount(m: seq<Acc>)
  {
    forall i :: 0 <= i < |m| ==> 0.0 <= m[i].totalReviewRatio <= m[i].gameCount
  }

  lemma {:induction false} CreditAllRatioBound(m: seq<Acc>, names: seq<string>, peak: real, ratio: real, share: real)
    requires RatioWithinCount(m)
    requires 0.0 <= ratio <= share
    ensures RatioWithinCount(CreditAll(m, names, peak, ratio, share))
  {
    if names != [] {
      CreditAllRatioBound(m, names[..|names| - 1], peak, ratio, share);
    }
  }

  // ---------------------------------------------------------------------------
  // From the map to the bubbles

  /** `total / count` */
  function Average(total: real, count: real): real
    requires count > 0.0
  {
    total / count
  }

  /** The average of parts that are each a fraction is a fraction. */
  lemma AverageOfFractions(total: real, count: real)
    requires 0.0 <= total <= count && count > 0.0
    ensures 0.0 <= Average(total, count) <= 1.0
  {
    var a := total / count;
    assert a * count == total;
  }

  /** `publisherData` before the indie entry: each entry's ratio per game and whole number of games. */
  function Averages(m: seq<Acc>): (r: seq<PublisherDatum>)
    requires PositiveCounts(m)
    ensures |r| == |m|
    ensures forall i :: 0 <= i < |r| ==>
      && r[i].publisher == m[i].publisher
      && r[i].totalPeakCCU == m[i].totalPeakCCU
      && r[i].averageReviewRatio == Average(m[i].totalReviewRatio, m[i].gameCount)
      && r[i].gameCount as real <= m[i].gameCount < r[i].gameCount as real + 1.0
      && !r[i].isIndie
  {
    seq(|m|, i requires 0 <= i < |m| =>
      PublisherDatum(m[i].publisher, m[i].totalPeakCCU, Average(m[i].totalReviewRatio, m[i].gameCount), m[i].gameCount.Floor, false))
  }

  /** The pooled bubble for the indie games. */
  function IndieDatum(st: AggState): PublisherDatum
    requires st.indieGameCount > 0
  {
    PublisherDatum(IndieBubbleName, st.indiePeakCCU, Average(st.indieReviewRatio, st.indieGameCount as real), st.indieGameCount, true)
  }

  /** `publisherData` as `updateVis` leaves it. */
  function PublisherData(data: seq<Game>, showIndie: bool): seq<PublisherDatum>
  {
    var st := Accumulated(data, showIndie);
    AccumulatedWellFormed(data, showIndie);
    Averages(st.entries) + (if st.indieGameCount > 0 && showIndie then [IndieDatum(st)] else [])
  }

  /**
   * The indie bubble is there exactly when it is shown and some game is indie; it
   * is the last entry and pools the peak CCU and the number of all indie games,
   * and no other entry is marked indie.
   */
  lemma IndieBubble(data: seq<Game>, showIndie: bool)
    ensures var pd := PublisherData(data, showIndie);
      && ((exists i :: 0 <= i < |pd| && pd[i].isIndie) <==> showIndie && exists g :: g in data && IsIndie(g))
      && forall i :: 0 <= i < |pd| && pd[i].isIndie ==>
        && i == |pd| - 1
        && pd[i].publisher == IndieBubbleName
        && pd[i].totalPeakCCU == SumGames(Filter(data, IsIndie), Peak)
        && pd[i].gameCount == |Filter(data, IsIndie)|
        && pd[i].averageReviewRatio == SumGames(Filter(data, IsIndie), ReviewRatio) / (|Filter(data, IsIndie)| as real)
  {
    AccumulatedIndie(data, showIndie);
    AccumulatedWellFormed(data, showIndie);
    var st := Accumulated(data, showIndie);
    var avg := Averages(st.entries);
    var pd := PublisherData(data, showIndie);
    var ind := Filter(data, IsIndie);
    var pooled := st.indieGameCount > 0 && showIndie;
    assert pd == avg + (if pooled then [IndieDatum(st)] else []);
    assert forall i :: 0 <= i < |pd| && pd[i].isIndie ==> pooled && i == |avg|;
    if showIndie && exists g :: g in data && IsIndie(g) {
      var g :| g in data && IsIndie(g);
      assert g in ind;
      assert pd[|avg|].isIndie;
    }
    if pooled {
      assert ind[0] in data && IsIndie(ind[0]);
    }
  }

  /** When every review ratio is a fraction, so is every bubble's average. */
  lemma AveragesAreFractions(data: seq<Game>, showIndie: bool)
    requires forall i :: 0 <= i < |data| ==> 0.0 <= ReviewRatio(data[i]) <= 1.0
    ensures var pd := PublisherData(data, showIndie);
      forall i :: 0 <= i < |pd| ==> 0.0 <= pd[i].averageReviewRatio <= 1.0
  {
    AccumulatedRatioBound(data, showIndie);
    AccumulatedWellFormed(data, showIndie);
    var st := Accumulated(data, showIndie);
    var avg := Averages(st.entries);
    forall i | 0 <= i < |avg|
      ensures 0.0 <= avg[i].averageReviewRatio <= 1.0
    {
      AverageOfFractions(st.entries[i].totalReviewRatio, st.entries[i].gameCount);
    }
    if st.indieGameCount > 0 && showIndie {
      AverageOfFractions(st.indieReviewRatio, st.indieGameCount as real);
    }
  }

  predicate ShownAt(d: PublisherDatum, threshold: int)
  {
    d.totalPeakCCU >= threshold as real || d.isIndie
  }

  function TotalPeakOf(d: PublisherDatum): real
  {
    d.totalPeakCCU
  }

  /**
   * `filteredPublishers`: the publishers at or above the threshold, and the indie
   * bubble whatever its size, largest total peak CCU first.
   */
  function Visible(pd: seq<PublisherDatum>, threshold: int): (r: seq<PublisherDatum>)
    ensures forall d :: d in r <==> d in pd && ShownAt(d, threshold)
    ensures multiset(r) == multiset(Filter(pd, d => ShownAt(d, threshold)))
    ensures SortedDesc(r, TotalPeakOf)
  {
    var kept := Filter(pd, d => ShownAt(d, threshold));
    var r := SortDesc(kept, TotalPeakOf);
    assert forall d :: d in r <==> d in multiset(kept);
    r
  }

  /** Raising the threshold only ever hides bubbles. */
  lemma VisibleShrinks(pd: seq<PublisherDatum>, t1: int, t2: int)
    requires t1 <= t2
    ensures forall d :: d in Visible(pd, t2) ==> d in Visible(pd, t1)
  {
  }

  function ToNode(d: PublisherDatum): Node
  {
    Node(d.publisher, Round(d.totalPeakCCU), d.averageReviewRatio, d.gameCount, d.isIndie)
  }

  /**
   * The horizontal target of a bubble, as a fraction of the chart width: the
   * indie bubble in the middle, the others in five bands of review ratio, the
   * best to the right.
   */
  function BandFraction(n: Node): (f: real)
    ensures n.isIndie ==> f == 0.5
    ensures !n.isIndie ==>
      && (f == 0.9 <==> n.positiveReviewRate > 0.8936)
      && (f == 0.7 <==> 0.7952 < n.positiveReviewRate <= 0.8936)
      && (f == 0.5 <==> 0.6968 <= n.positiveReviewRate <= 0.7952)
      && (f == 0.3 <==> 0.5984 <= n.positiveReviewRate < 0.6968)
      && (f == 0.1 <==> n.positiveReviewRate < 0.5984)
  {
    if n.isIndie then 0.5
    else if n.positiveReviewRate > MaxReviewRate - ReviewRateDiff / 5.0 then 0.9
    else if n.positiveReviewRate > MaxReviewRate - (ReviewRateDiff * 2.0) / 5.0 then 0.7
    else if n.positiveReviewRate < MinReviewRate + ReviewRateDiff / 5.0 then 0.1
    else if n.positiveReviewRate < MinReviewRate + (ReviewRateDiff * 2.0) / 5.0 then 0.3
    else 0.5
  }

  /** A better-reviewed publisher is never placed to the left of a worse-reviewed one. */
  lemma BandMonotone(a: Node, b: Node)
    requires !a.isIndie && !b.isIndie
    requires a.positiveReviewRate <= b.positiveReviewRate
    ensures BandFraction(a) <= BandFraction(b)
  {
  }

  // ---------------------------------------------------------------------------
  // The slider

  /** Where the thumb goes: the pointer's x clamped to the track. */
  function ThumbX(eventX: real): (x: real)
    ensures TrackX <= x <= TrackX + TrackWidth
    ensures TrackX <= eventX <= TrackX + TrackWidth ==> x == eventX
  {
    if eventX < TrackX then TrackX
    else if eventX > TrackX + TrackWidth then TrackX + TrackWidth
    else eventX
  }

  /** The threshold a thumb position stands for, rounded to a whole number of players. */
  function ThresholdAt(x: real): int
  {
    Round(MinThreshold as real + (x - TrackX) / TrackWidth * (MaxThreshold - MinThreshold) as real)
  }

  /** The threshold a drag to eventX sets. */
  function SliderThreshold(eventX: real): (t: int)
    ensures MinThreshold <= t <= MaxThreshold
    ensures eventX <= TrackX ==> t == MinThreshold
    ensures eventX >= TrackX + TrackWidth ==> t == MaxThreshold
  {
    var x := ThumbX(eventX);
    var v := MinThreshold as real + (x - TrackX) / TrackWidth * (MaxThreshold - MinThreshold) as real;
    assert 0.0 <= (x - TrackX) / TrackWidth <= 1.0;
    assert MinThreshold as real <= v <= MaxThreshold as real;
    ThresholdAt(x)
  }

  /** The thumb's starting place is the default threshold. */
  lemma ThresholdAtTrackStart()
    ensures ThresholdAt(TrackX) == MinThreshold
  {
    assert SliderThreshold(TrackX) == MinThreshold;
  }

  lemma FloorMonotone(a: real, b: real)
    requires a <= b
    ensures a.Floor <= b.Floor
  {
    assert a.Floor as real <= a <= b < b.Floor as real + 1.0;
  }

  /** Dragging further right never lowers the threshold. */
  lemma SliderMonotone(x1: real, x2: real)
    requires x1 <= x2
    ensures SliderThreshold(x1) <= SliderThreshold(x2)
  {
    var a := ThumbX(x1);
    var b := ThumbX(x2);
    assert (a - TrackX) / TrackWidth <= (b - TrackX) / TrackWidth;
    var va := MinThreshold as real + (a - TrackX) / TrackWidth * (MaxThreshold - MinThreshold) as real;
    var vb := MinThreshold as real + (b - TrackX) / TrackWidth * (MaxThreshold - MinThreshold) as real;
    FloorMonotone(va + 0.5, vb + 0.5);
  }

  // ---------------------------------------------------------------------------
  // Selection

  /**
   * A click on bubble d: clicking the selected bubble clears the selection and
   * announces null; clicking another selects it and announces its publisher,
   * or "Indie" for the indie bubble. Returns (new selection, announcement).
   */
  function ClickOutcome(selected: Option<string>, d: PublisherDatum): (r: (Option<string>, Option<string>))
    ensures selected == Some(d.publisher) ==> r == (None, None)
    ensures selected != Some(d.publisher) ==>
      && r.0 == Some(d.publisher)
      && r.1 == Some(if d.isIndie then IndieSelection else d.publisher)
  {
    if selected == Some(d.publisher) then (None, None)
    else (Some(d.publisher), Some(if d.isIndie then IndieSelection else d.publisher))
  }

  /** A second click on the same bubble undoes the first. */
  lemma ClickTwiceClears(selected: Option<string>, d: PublisherDatum)
    requires selected != Some(d.publisher)
    ensures ClickOutcome(ClickOutcome(selected, d).0, d) == (None, None)
  {
  }

  /** Stroke width of a bubble: 3 for the selected publisher, 1 for every other. */
  function StrokeWidth(d: Node, selected: Option<string>): int
  {
    if selected == Some(d.publisher) then 3 else 1
  }

  /** `data.find(d => d.AppID === id)`: the first game with that id. */
  function FindGame(data: seq<Game>, id: int): (r: Option<Game>)
    ensures r.None? <==> forall i :: 0 <= i < |data| ==> data[i].appId != id
    ensures r.Some? ==> exists i :: (0 <= i < |data| && data[i] == r.value && r.value.appId == id
      && forall j :: 0 <= j < i ==> data[j].appId != id)
  {
    if data == [] then None
    else if data[0].appId == id then Some(data[0])
    else
      var r := FindGame(data[1..], id);
      if r.Some? then
        var i :| 0 <= i < |data[1..]| && data[1..][i] == r.value && r.value.appId == id
          && forall j :: 0 <= j < i ==> data[1..][j].appId != id;
        assert data[i + 1] == r.value;
        assert forall j :: 0 <= j < i + 1 ==> data[j].appId != id;
        r
      else
        r
  }

  /**
   * The selection after `highlightPublisher(id)`: the pooled indie bubble for an
   * indie game while it is shown, otherwise the game's whole publisher column
   * (unsplit), and no change for an unknown id or an empty column.
   */
  function HighlightSelection(data: seq<Game>, showIndie: bool, selected: Option<string>, id: int): (r: Option<string>)
    ensures (forall i :: 0 <= i < |data| ==> data[i].appId != id) ==> r == selected
    ensures r != selected ==> exists g :: (g in data && g.appId == id
      && r == Some(if IsIndie(g) && showIndie then IndieBubbleName else g.publishers))
    ensures forall i :: 0 <= i < |data| && data[i].appId == id && (forall j :: 0 <= j < i ==> data[j].appId != id) ==>
      && (IsIndie(data[i]) && showIndie ==> r == Some(IndieBubbleName))
      && (!(IsIndie(data[i]) && showIndie) && data[i].publishers != "" ==> r == Some(data[i].publishers))
      && (!(IsIndie(data[i]) && showIndie) && data[i].publishers == "" ==> r == selected)
  {
    match FindGame(data, id)
    case None => selected
    case Some(g) =>
      if IsIndie(g) && showIndie then Some(IndieBubbleName)
      else if g.publishers != "" then Some(g.publishers)
      else selected
  }

  /**
   * Selecting an indie game while the indie bubble is shown highlights a bubble
   * that is drawn: the pooled one, named "Indie Games" (a click on that bubble
   * announces "Indie" instead).
   */
  lemma HighlightFindsIndieBubble(data: seq<Game>, selected: Option<string>, id: int, k: int)
    requires 0 <= k < |data| && data[k].appId == id && IsIndie(data[k])
    requires forall j :: 0 <= j < k ==> data[j].appId != id
    ensures var pd := PublisherData(data, true);
      && HighlightSelection(data, true, selected, id) == Some(IndieBubbleName)
      && exists i :: 0 <= i < |pd| && pd[i].isIndie && pd[i].publisher == IndieBubbleName
  {
    assert data[k] in data;
    IndieBubble(data, true);
  }

  // ---------------------------------------------------------------------------
  // The view

  class PublisherBubbleView {
    var data: seq<Game>
    var selectedPublisher: Option<string>
    var threshold: int
    var showIndieBubble: bool
    var thumbX: real
    var publisherData: seq<PublisherDatum>
    var filteredPublishers: seq<PublisherDatum>
    var nodes: seq<Node>

    /** The slider's thumb always sits on the track at the position of the threshold. */
    predicate Valid()
      reads this`thumbX, this`threshold
    {
      TrackX <= thumbX <= TrackX + TrackWidth && threshold == ThresholdAt(thumbX)
    }

    /** What the last `updateVis` on non-empty data left behind. */
    predicate Rendered()
      reads this`data, this`showIndieBubble, this`threshold, this`publisherData, this`filteredPublishers, this`nodes
    {
      && publisherData == PublisherData(data, showIndieBubble)
      && filteredPublishers == Visible(publisherData, threshold)
      && nodes == Map(filteredPublishers, ToNode)
    }

    constructor (games: seq<Game>)
      ensures Valid()
      ensures data == games && selectedPublisher == None
      ensures threshold == MinThreshold && showIndieBubble
      ensures data != [] ==> Rendered()
    {
      data := games;
      selectedPublisher := None;
      threshold := MinThreshold;
      showIndieBubble := true;
      thumbX := TrackX;
      publisherData := [];
      filteredPublishers := [];
      nodes := [];
      new;
      ThresholdAtTrackStart();
      UpdateVis();
    }

    /** Recompute the bubbles; with no data nothing changes. */
    method UpdateVis()
      modifies this`publisherData, this`filteredPublishers, this`nodes
      ensures data != [] ==> Rendered()
      ensures data == [] ==> (publisherData == old(publisherData) && filteredPublishers == old(filteredPublishers)
        && nodes == old(nodes))
    {
      if data == [] {
        return;
      }
      var st := Aggregate(data, showIndieBubble);
      AccumulatedWellFormed(data, showIndieBubble);
      var pd := Averages(st.entries);
      if st.indieGameCount > 0 && showIndieBubble {
        pd := pd + [IndieDatum(st)];
      }
      assert pd == PublisherData(data, showIndieBubble);
      publisherData := pd;
      filteredPublishers := Visible(publisherData, threshold);
      nodes := Map(filteredPublishers, ToNode);
    }

    /** A drag of the slider thumb to eventX; returns the threshold announced to the other views. */
    method Dragged(eventX: real) returns (announced: int)
      modifies this`thumbX, this`threshold, this`publisherData, this`filteredPublishers, this`nodes
      ensures Valid()
      ensures thumbX == ThumbX(eventX)
      ensures threshold == SliderThreshold(eventX) && announced == threshold
      ensures data != [] ==> Rendered()
      ensures data == [] ==> (publisherData == old(publisherData) && filteredPublishers == old(filteredPublishers)
        && nodes == old(nodes))
    {
      thumbX := ThumbX(eventX);
      threshold := ThresholdAt(thumbX);
      UpdateVis();
      announced := threshold;
    }

    /** The "Hide Indie"/"Show Indie" button; returns the visibility announced to the other views. */
    method ToggleIndie() returns (announced: bool)
      modifies this`showIndieBubble, this`publisherData, this`filteredPublishers, this`nodes
      ensures showIndieBubble == !old(showIndieBubble) && announced == showIndieBubble
      ensures data != [] ==> Rendered()
      ensures data == [] ==> (publisherData == old(publisherData) && filteredPublishers == old(filteredPublishers)
        && nodes == old(nodes))
    {
      showIndieBubble := !showIndieBubble;
      UpdateVis();
      announced := showIndieBubble;
    }

    /** A click on a bubble; returns the publisher announced by `selectPublisher` (None for null). */
    method Click(d: PublisherDatum) returns (announced: Option<string>)
      modifies this`selectedPublisher
      ensures (selectedPublisher, announced) == ClickOutcome(old(selectedPublisher), d)
    {
      if Some(d.publisher) == selectedPublisher {
        selectedPublisher := None;
        announced := None;
      } else {
        selectedPublisher := Some(d.publisher);
        if d.isIndie {
          announced := Some(IndieSelection);
        } else {
          announced := Some(d.publisher);
        }
      }
    }

    /** Select the bubble of the game with the given id. */
    method HighlightPublisher(gameId: int)
      modifies this`selectedPublisher
      ensures selectedPublisher == HighlightSelection(data, showIndieBubble, old(selectedPublisher), gameId)
      ensures forall i :: 0 <= i < |data| && data[i].appId == gameId && (forall j :: 0 <= j < i ==> data[j].appId != gameId) ==>
        && (IsIndie(data[i]) && showIndieBubble ==> selectedPublisher == Some(IndieBubbleName))
        && (!(IsIndie(data[i]) && showIndieBubble) && data[i].publishers != "" ==> selectedPublisher == Some(data[i].publishers))
        && (!(IsIndie(data[i]) && showIndieBubble) && data[i].publishers == "" ==> selectedPublisher == old(selectedPublisher))
      ensures (forall i :: 0 <= i < |data| ==> data[i].appId != gameId) ==> selectedPublisher == old(selectedPublisher)
    {
      var game := FindGame(data, gameId);
      if game.Some? {
        if IsIndie(game.value) && showIndieBubble {
          selectedPublisher := Some(IndieBubbleName);
        } else if game.value.publishers != "" {
          selectedPublisher := Some(game.value.publishers);
        }
      }
    }
  }
}
