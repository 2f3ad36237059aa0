# Steam games dashboard — a Dafny model

The dashboard is a single web page of linked d3 views over a table of Steam
games. Each game has an id, a title, publishers, a release date, a peak player
count ("Peak CCU"), a price, a revenue, a review ratio and a class ("Indie" or
not). The page controller (`main.js`) loads the records and keeps those with a
valid release date. It holds a global time range and hands the records inside
it to the views. It also relays the events the views raise through one d3
dispatcher:

- an overview timeline with a brush and an animated walkthrough (`filterTime`);
- a detail timeline of daily releases with a hover read-out;
- a publisher bubble chart with a peak-player slider (`updatePeakCCUThreshold`), an indie toggle (`updateIndieVisibility`) and clickable bubbles (`selectPublisher`);
- a games bubble chart for the chosen publisher (`selectGame`, `backToPublishers`);
- a price/revenue scatter plot;
- a carousel of the 24 most played games, four to a page, that turns on its own every five seconds.

The model has one Dafny module per source file:

- `Games`: values shared by every view. JavaScript numbers that may be NaN,
  Dates that may be invalid, `+x || 0`, `Math.ceil` and `Math.round`.
  `trim`, `split` and `toLowerCase`. `filter` and `map`. The stable
  descending sort with `slice(0, n)`. d3's `extent` and `rollup`.
- `PublisherBubble`, `GameBubble`, `ScatterPlot`, `GameList`, `TimelineTop`
  and `TimelineDetail`: one module per view.
  - A view whose fields its methods reassign is a class, and each method
    states the view's new state.
  - The data pipeline of each `updateVis` is a function of its inputs.
    Lemmas state what that function keeps, orders, bounds and counts.
  - Where the source computes with a loop or with a chain of reassignments,
    a method does the same and is proved equal to that function.
- `Dashboard`: the page as a class `Page` that owns the six views.
  - An event a view raises is that view method's return value.
  - `Page` delivers each event to the listeners in the order the source
    registers them.
  - Each page method may change only the fields its `modifies` clause
    names, so every other view field stays as it was for the caller. Its
    `ensures` say what it does to the fields it changes: new settings and
    records by value, redrawn views through each view's `Rendered`.

Timers (`setTimeout`, `setInterval`) are explicit. Arming one records a
pending callback. Its firing is a separate method that the page calls.

## Model

| member | source | states |
|---|---|---|
| Games.Ceil | js/timeLineViewDetail.js:207 | `Math.ceil`: the least integer not below x |
| Games.Round | js/publisherBubbleView.js:311-314 | `Math.round`: the integer within half of x, halves rounding up |
| Games.DayFloor | js/timeLineViewDetail.js:164 | `d3.timeDay.floor`: the start of the day holding t, a whole number of days, at most t and within a day of it |
| Games.DefaultTimeDomain | js/timeLineViewTop.js:409-412 | the domain a time scale keeps when no data ever set it starts on January 1st 2000 and spans exactly one day |
| Games.ReleaseTimes | js/timeLineViewDetail.js:151-158 | one time per record with a valid date, in record order, each that record's release time; none exactly when no record has a valid date |
| Games.Extent | js/timeLineViewTop.js:425-426 | `d3.extent`: [undefined, undefined] exactly for no rows; otherwise two valid ordered dates, both attained, that enclose every row |
| Games.TrimStart | js/publisherBubbleView.js:373 | removes a prefix made only of white space and leaves a string that does not start with white space |
| Games.TrimEnd | js/publisherBubbleView.js:373 | removes a suffix made only of white space and leaves a string that does not end with white space |
| Games.TrimIsInfix | js/publisherBubbleView.js:373 | `trim` keeps one contiguous run of the name |
| Games.TrimmedEnds | js/publisherBubbleView.js:373 | a trimmed name is empty or starts and ends with a non-space |
| Games.Split | js/publisherBubbleView.js:373 | `split(",")` yields at least one piece and no piece holds a comma |
| Games.JoinSplit | js/publisherBubbleView.js:373 | joining the pieces of a split with the separator gives the string back |
| Games.SplitJoin | js/publisherBubbleView.js:373 | splitting the join of comma-free pieces gives the pieces back |
| Games.ToLower | js/gameListView.js:292 | `toLowerCase` keeps the length and lower-cases each character |
| Games.Filter | js/main.js:379-394 | `filter` keeps, in order, exactly the elements that pass the test |
| Games.FilterSubMultiset | js/main.js:379-394 | a filter never adds or duplicates an element |
| Games.FilterFilter | js/main.js:192-205 | two filters in a row select the same list as one filter by both tests |
| Games.FilterMap | js/scatterPlotView.js:127-151 | filtering mapped rows selects the images of the rows whose image passes |
| Games.Map | js/gameBubbleView.js:284-298 | `map` keeps the length and applies the function to each row in place |
| Games.InsertDesc | js/gameBubbleView.js:317 | inserting into a list sorted largest first keeps it sorted and adds exactly that element |
| Games.SortDesc | js/gameBubbleView.js:317 | the sort by a key, largest first, is sorted and a permutation of its input |
| Games.TopNShape | js/gameBubbleView.js:316-318 | sort then `slice(0, n)`: min(n, length) elements, sorted, drawn from the input, and the whole sorted list when it is short |
| Games.TopNLeftBehind | js/gameBubbleView.js:316-318 | an element left out by sort-and-slice means n were kept, none smaller than it |
| Games.FilterInsertDesc | js/gameBubbleView.js:317 | inserting into a sorted list keeps the elements of each key in input order, the new one in front of its equals |
| Games.SortDescStable | js/gameBubbleView.js:317 | the sort is stable: the sorted list filtered to any one key is the input filtered to that key |
| Games.TopNStable | js/gameBubbleView.js:316-318 | of each key, sort-and-slice keeps a prefix of that key's elements in input order |
| Games.AddKey | js/timeLineViewDetail.js:161-171 | counting one more row puts it in the first group or keeps the first group first |
| Games.CountByKey | js/timeLineViewDetail.js:161-171 | `rollup` then sort by key: strictly ascending keys, non-empty groups, and the groups stand for exactly the rows |
| Games.CountByKeyCounts | js/timeLineViewTop.js:398-405 | the group counts add up to the number of rows, each count is its key's number of rows, and every key has a group |
| PublisherBubble.PublisherNames | js/publisherBubbleView.js:372-374 | every non-indie game is credited to at least one name; a non-empty column gives one name per comma piece, in order, each that piece trimmed |
| PublisherBubble.TrimAll | js/publisherBubbleView.js:373 | keeps the number of pieces and trims each piece in place |
| PublisherBubble.UnknownCredited | js/publisherBubbleView.js:372-374 | a game with an empty publisher column is credited whole (its peak, its ratio and one game) to the single publisher "Unknown" |
| PublisherBubble.PublisherNamesClean | js/publisherBubbleView.js:372-374 | no credited name holds a comma or starts or ends with white space |
| PublisherBubble.IndexOf | js/publisherBubbleView.js:386-399 | `has`/`get` on the publisher map: the position of the name's entry, or -1 exactly when the name has none |
| PublisherBubble.Reciprocal | js/publisherBubbleView.js:380 | a game's share per publisher is a positive fraction |
| PublisherBubble.AccumulatedWellFormed | js/publisherBubbleView.js:355-402 | the publisher map never holds two entries for one name, and every entry counts a positive number of games |
| PublisherBubble.Aggregate | js/publisherBubbleView.js:349-402 | the loop over the games builds the map and the three indie totals as the fold of one step per game |
| PublisherBubble.CreditPublishers | js/publisherBubbleView.js:380-399 | the inner loop credits each of a game's publishers its share, in order |
| PublisherBubble.CreditPublisher | js/publisherBubbleView.js:386-399 | one publisher's share is added to its entry or appended as a new entry |
| PublisherBubble.CreditTotals | js/publisherBubbleView.js:386-399 | crediting a share adds exactly that share to the map's three totals |
| PublisherBubble.CreditAllTotals | js/publisherBubbleView.js:380-399 | crediting k names adds k shares to each of the map's totals |
| PublisherBubble.SharesAddUp | js/publisherBubbleView.js:380-383 | the shares of a game's publishers add back up to its peak, its review ratio and one game |
| PublisherBubble.AccumulatedTotals | js/publisherBubbleView.js:355-402 | the map's totals of peak, review ratio and games equal the sums over the non-indie games; nothing is lost or counted twice when games are split among publishers |
| PublisherBubble.AccumulatedIndie | js/publisherBubbleView.js:359-369 | indie games never reach the map; the indie pool counts them and sums their peak and ratio when shown, and is zero when hidden |
| PublisherBubble.CreditAllFresh | js/publisherBubbleView.js:386-399 | distinct names credited into an empty map give one entry per name, in order |
| PublisherBubble.SingleGameShares | js/publisherBubbleView.js:372-399 | a single game with distinct publishers yields one entry per publisher, each with an equal share |
| PublisherBubble.AccumulatedRatioBound | js/publisherBubbleView.js:375-399 | with review ratios between 0 and 1, every entry's ratio total stays between 0 and its game count |
| PublisherBubble.CreditAllRatioBound | js/publisherBubbleView.js:386-399 | crediting a ratio no larger than the share keeps each ratio total within its game count |
| PublisherBubble.AverageOfFractions | js/publisherBubbleView.js:405-411 | an average of fractions is a fraction |
| PublisherBubble.Averages | js/publisherBubbleView.js:405-411 | one bubble per entry, with its publisher and peak, the average ratio, and the game count floored to a whole number |
| PublisherBubble.IndieBubble | js/publisherBubbleView.js:414-422 | the pooled indie bubble exists exactly when indie games are shown and there are some; it comes last and carries their summed peak, their count and their summed review ratio over that count |
| PublisherBubble.AveragesAreFractions | js/publisherBubbleView.js:405-422 | with review ratios between 0 and 1 every bubble's average ratio is between 0 and 1 |
| PublisherBubble.Visible | js/publisherBubbleView.js:425-427 | the bubbles shown are exactly those at or above the threshold plus the indie bubble whatever its size, a permutation of that filter, sorted by total peak, largest first |
| PublisherBubble.VisibleShrinks | js/publisherBubbleView.js:425-427 | raising the threshold only ever hides bubbles |
| PublisherBubble.BandFraction | js/publisherBubbleView.js:536-560 | the indie bubble sits in the middle; others go to one of five bands by review rate, each band an interval of rates |
| PublisherBubble.BandMonotone | js/publisherBubbleView.js:536-560 | a better-reviewed publisher is never placed left of a worse-reviewed one |
| PublisherBubble.ThumbX | js/publisherBubbleView.js:305 | the thumb follows the pointer, clamped to the track |
| PublisherBubble.SliderThreshold | js/publisherBubbleView.js:305-314 | the threshold lies between 5000 and 100000, with the two ends of the track giving the two bounds |
| PublisherBubble.ThresholdAtTrackStart | js/publisherBubbleView.js:14-16 | the thumb's starting place stands for the default threshold |
| PublisherBubble.SliderMonotone | js/publisherBubbleView.js:305-314 | dragging further right never lowers the threshold |
| PublisherBubble.ClickOutcome | js/publisherBubbleView.js:697-728 | clicking the selected bubble clears the selection and announces null; otherwise it selects the bubble and announces its publisher, "Indie" for the indie bubble |
| PublisherBubble.ClickTwiceClears | js/publisherBubbleView.js:697-728 | a second click on the same bubble undoes the first |
| PublisherBubble.FindGame | js/publisherBubbleView.js:759 | `find`: the first game with the id, none exactly when no game has it |
| PublisherBubble.HighlightSelection | js/publisherBubbleView.js:755-766 | for the first game with the id: "Indie Games" when it is indie and the indie bubble is shown, otherwise its whole unsplit publisher column when that is non-empty, otherwise the old selection; an unknown id keeps the selection |
| PublisherBubble.PublisherBubbleView.constructor | js/publisherBubbleView.js:2-27 | the view starts at the default threshold, with indie games shown and nothing selected, and draws its data |
| PublisherBubble.PublisherBubbleView.UpdateVis | js/publisherBubbleView.js:331-430 | with data, the bubbles are recomputed from the records, threshold and toggle; with none, nothing changes |
| PublisherBubble.PublisherBubbleView.Dragged | js/publisherBubbleView.js:300-324 | a drag moves the thumb, sets and announces the slider's threshold, and redraws |
| PublisherBubble.PublisherBubbleView.ToggleIndie | js/publisherBubbleView.js:176-184 | the toggle flips indie visibility, announces it and redraws |
| PublisherBubble.PublisherBubbleView.Click | js/publisherBubbleView.js:697-728 | a click changes the selection and announces as the click outcome says |
| PublisherBubble.PublisherBubbleView.HighlightPublisher | js/publisherBubbleView.js:755-779 | the selection becomes HighlightSelection's: "Indie Games" for an indie game while the indie bubble is shown, else the game's non-empty publisher column, else unchanged, and unchanged for an unknown id |
| PublisherBubble.HighlightFindsIndieBubble | js/publisherBubbleView.js:759-763 | an indie game selected while the indie bubble is shown highlights a drawn bubble, the pooled "Indie Games" one |
| GameBubble.Title | js/gameBubbleView.js:286 | a game's label is its name, or a non-empty stand-in when the name is empty |
| GameBubble.ProcessData | js/gameBubbleView.js:284-318 | the chain of map, three filters, sort and slice computes the processed bubbles |
| GameBubble.CandidatesQualify | js/gameBubbleView.js:301-311 | the three filters in a row keep the same bubbles as one qualifying test |
| GameBubble.KeptMembers | js/gameBubbleView.js:301-311 | a bubble is kept exactly when it qualifies and comes from some game of the data |
| GameBubble.NoPeakDrawsNothing | js/gameBubbleView.js:301 | games without a peak player count draw no bubble |
| GameBubble.ProcessedShape | js/gameBubbleView.js:316-318 | at most 50 bubbles, sorted by peak, each qualifying and from the data; all of them when at most 50 qualify |
| GameBubble.ProcessedIsTop | js/gameBubbleView.js:316-318 | a qualifying game left out means 50 were drawn, none with a smaller peak |
| GameBubble.ProcessedEmpty | js/gameBubbleView.js:301-318 | some bubble is drawn exactly when some game qualifies |
| GameBubble.BandFraction | js/gameBubbleView.js:413-421 | high-rated games go to the right band, low-rated to the left, the rest to the middle |
| GameBubble.BandMonotone | js/gameBubbleView.js:413-421 | a better-reviewed game never sits in a band further left |
| GameBubble.Outline | js/gameBubbleView.js:466-467 | the selected game, and only it, gets the thick, opaque outline |
| GameBubble.Label | js/gameBubbleView.js:543 | a title longer than 10 characters is cut to 10 and given "..."; shorter ones are kept; the kept part is the title's prefix |
| GameBubble.ChartTitleCases | js/gameBubbleView.js:393-402 | the heading is the indie heading exactly when an indie game is present or the first publisher is "Indie"; otherwise it is "Games by " and the first game's publishers |
| GameBubble.GameBubbleView.constructor | js/gameBubbleView.js:2-32 | the view starts unselected with no threshold, indie games shown, and its first draw: a message for no data, the processed bubbles otherwise |
| GameBubble.GameBubbleView.UpdateVis | js/gameBubbleView.js:263-445 | no data adds one more "select a publisher" message and keeps the bubbles; data removes one message and draws the processed bubbles |
| GameBubble.GameBubbleView.OnThreshold | js/gameBubbleView.js:20-23 | the threshold is taken up and the bubbles redrawn |
| GameBubble.GameBubbleView.OnIndieVisibility | js/gameBubbleView.js:26-29 | the indie setting is taken up and the bubbles redrawn |
| GameBubble.GameBubbleView.Click | js/gameBubbleView.js:509-521 | a click selects the game and announces its id; the bubble then has the selected outline |
| GameBubble.GameBubbleView.HighlightGame | js/gameBubbleView.js:548-559 | exactly the given game's bubble gets the selected outline |
| GameList.ToCard | js/gameListView.js:305-326 | a card keeps its game's id and indie class and takes its peak as `+x \|\| 0` |
| GameList.TopGamesOfSorted | js/gameListView.js:341-342 | the top games are the first 24 of the sorted cards |
| GameList.KeptMembers | js/gameListView.js:273-337 | a kept card is the card of a game in scope that passes the threshold and indie filters |
| GameList.TopGamesShape | js/gameListView.js:329-342 | at most 24 cards, sorted by peak, a prefix of the sorted cards, each passing the threshold and indie filters and indie under the indie scope |
| GameList.TopGamesPublisher | js/gameListView.js:289-293 | under a named publisher every card's publishers match it, ignoring case |
| GameList.FilterCards | js/gameListView.js:273-337 | the reassignment steps compute the kept cards |
| GameList.TotalPages | js/gameListView.js:240 | the number of pages is the least that holds every card; zero exactly for no cards |
| GameList.JsRem | js/gameListView.js:243-246 | JavaScript `%`: NaN exactly for a zero divisor, the usual remainder for non-negative operands |
| GameList.ArrowsCircle | js/gameListView.js:238-262 | with pages, right and left move one page round the circle and undo each other |
| GameList.RightRoundTrip | js/gameListView.js:172-186 | as many automatic turns as there are pages come back to the same page |
| GameList.RightsAdd | js/gameListView.js:245-246 | k presses of right advance the page by k modulo the number of pages |
| GameList.EmptyCarousel | js/gameListView.js:240-246 | with no cards the arrows make the page NaN, and it stays NaN |
| GameList.TranslateX | js/gameListView.js:253-255 | the strip's offset is page times page width plus 6, NaN for a NaN page |
| GameList.TranslateXMonotone | js/gameListView.js:253-255 | later pages sit at least one page width further along |
| GameList.CardStyle | js/gameListView.js:486-494 | the selected card, and only it, is opaque with a 3-pixel border |
| GameList.GameListView.constructor | js/gameListView.js:2-48 | the list starts on page 0, unfiltered, unselected, unpaused, with no timer and no cards |
| GameList.GameListView.UpdateVis | js/gameListView.js:264-351 | with data the cards are recomputed, the page reset to 0 and a fresh interval armed; with none nothing changes |
| GameList.GameListView.ShowCards | js/gameListView.js:341-350 | the sorted cards are kept, the first 24 become the top games, page 0 is shown and one interval is live |
| GameList.GameListView.NavigateToPage | js/gameListView.js:238-262 | with cards the page moves as the arrows prescribe and the strip follows; without cards nothing moves |
| GameList.GameListView.StartAutoRotate | js/gameListView.js:172-186 | any held interval is cleared and exactly one new one is live |
| GameList.GameListView.PauseAutoRotate | js/gameListView.js:188-190 | the rotation is paused |
| GameList.GameListView.ResumeAutoRotate | js/gameListView.js:192-194 | the rotation is resumed |
| GameList.GameListView.StopAutoRotate | js/gameListView.js:201-206 | no interval is live afterwards, and a second stop changes nothing |
| GameList.GameListView.Tick | js/gameListView.js:180-185 | a firing turns one page right unless paused |
| GameList.GameListView.ArrowClick | js/gameListView.js:104-107 | an arrow moves one page and restarts the interval for a full period |
| GameList.GameListView.CardClick | js/gameListView.js:376-382 | a click selects the card, pauses the rotation and announces the id |
| GameList.GameListView.FilterByPublisher | js/gameListView.js:496-500 | the publisher filter is taken up, the cards redrawn and page 0 shown |
| GameList.GameListView.OnThreshold | js/gameListView.js:38-41 | the threshold is taken up, the cards redrawn and page 0 shown |
| GameList.GameListView.OnIndieVisibility | js/gameListView.js:44-47 | the indie setting is taken up, the cards redrawn and page 0 shown |
| GameList.GameListView.HighlightGame | js/gameListView.js:502-506 | only the selection changes |
| ScatterPlot.ToPoint | js/scatterPlotView.js:127-139 | a point keeps its game's id, price and indie class, and takes revenue as `+x \|\| 0` |
| ScatterPlot.ProcessedMembers | js/scatterPlotView.js:111-151 | a game's point is drawn exactly when the game is in scope and passes the threshold and indie filters |
| ScatterPlot.ProcessedScope | js/scatterPlotView.js:111-124 | under the indie scope only indie games are drawn; under a name only that publisher's |
| ScatterPlot.ProcessData | js/scatterPlotView.js:111-151 | the reassignment steps compute the processed points |
| ScatterPlot.ValidData | js/scatterPlotView.js:193-198 | the drawable points are exactly those with a non-negative numeric price and a positive revenue |
| ScatterPlot.OverPriceLimit | js/scatterPlotView.js:201 | the count of points priced over the cap, zero exactly when there is none |
| ScatterPlot.MarkOf | js/scatterPlotView.js:221-240 | over-cap points are orange; the selected point, and only it, is red when under the cap, opaque and thick; every x is within the capped range |
| ScatterPlot.PriceCapPlacement | js/scatterPlotView.js:163-221 | points over the cap share one x; only prices above 80 fall right of the axis; x grows with price |
| ScatterPlot.Marks | js/scatterPlotView.js:221-240 | one mark per drawable point, in order |
| ScatterPlot.ScatterPlotView.constructor | js/scatterPlotView.js:2-32 | nothing is drawn, nothing selected, no threshold, indie games shown |
| ScatterPlot.ScatterPlotView.UpdateVis | js/scatterPlotView.js:100-187 | with data the points and marks are recomputed; with none nothing changes |
| ScatterPlot.ScatterPlotView.RenderVis | js/scatterPlotView.js:189-281 | the drawable points, over-cap count and marks follow from the processed points |
| ScatterPlot.ScatterPlotView.OnThreshold | js/scatterPlotView.js:20-23 | the threshold is taken up and the points redrawn |
| ScatterPlot.ScatterPlotView.OnIndieVisibility | js/scatterPlotView.js:26-29 | the indie setting is taken up and the points redrawn |
| ScatterPlot.ScatterPlotView.FilterByPublisher | js/scatterPlotView.js:309-313 | the publisher scope is taken up and the points redrawn |
| ScatterPlot.ScatterPlotView.HighlightGame | js/scatterPlotView.js:315-319 | the selection is taken up and the points redrawn |
| ScatterPlot.ScatterPlotView.Click | js/scatterPlotView.js:255 | a click announces the point's id |
| TimelineTop.Coarseness | js/timeLineViewTop.js:363-376 | ranks the granularities daily (0) < monthly (1) < yearly (2), one rank each |
| TimelineTop.GranularityMonotone | js/timeLineViewTop.js:363-376 | yearly buckets exactly above 730 days, daily exactly at 60 days or less, and a longer range never gets finer buckets |
| TimelineTop.FallbackBucketsCount | js/timeLineViewTop.js:388-406 | without precomputed counts the buckets are strictly ascending, non-empty, and count every dated record once |
| TimelineTop.ShownBuckets | js/timeLineViewTop.js:363-387 | with a two-date range a bucket is shown exactly when it is one of the chosen granularity, inside the range and not before the start year |
| TimelineTop.ShownBucketsFullView | js/timeLineViewTop.js:383-387 | without a range the monthly buckets from the start year on are shown |
| TimelineTop.DefaultWindow | js/timeLineViewTop.js:494-505 | the default brush ends at the domain end and reaches back one year, clamped to the domain |
| TimelineTop.WalkStart | js/timeLineViewTop.js:251-256 | the walkthrough starts on January 1st of the start year, or at the domain start when that is later |
| TimelineTop.RedrawnConsistent | js/timeLineViewTop.js:350-476 | a redraw keeps a default brush pending exactly while one is applied and the domain fitted to the buckets, and leaves the updates flag, the chosen range, the re-apply count, the start year and the walkthrough as they were |
| TimelineTop.RedrawnSchedulesDefault | js/timeLineViewTop.js:421-476 | with no range chosen, a redraw that shows buckets makes their extent the domain and leaves a default brush pending: the one under way, or else the default window of the new domain, which the brush then holds |
| TimelineTop.RedrawnKeepsChosenRange | js/timeLineViewTop.js:445-476 | with a range the user chose, a redraw keeps the brush and any pending default brush |
| TimelineTop.RedrawnTwice | js/timeLineViewTop.js:350-443 | redrawing twice with the same counts is redrawing once |
| TimelineTop.TimelineTopView.constructor | js/timeLineViewTop.js:9-30 | the view starts with the default start year, updates on, no walkthrough and the full range, and its state is the initial state redrawn once with its counts |
| TimelineTop.TimelineTopView.PauseUpdates | js/timeLineViewTop.js:527-529 | updates are paused |
| TimelineTop.TimelineTopView.ResumeUpdates | js/timeLineViewTop.js:531-533 | updates are resumed |
| TimelineTop.TimelineTopView.UpdateVis | js/timeLineViewTop.js:350-443 | the new state is the old one redrawn with the grouped counts: paused or without counts nothing changes; no bucket leaves an empty chart; otherwise the buckets from the start year on are kept, their extent is the domain and the chart is rendered |
| TimelineTop.TimelineTopView.ShowGrouped | js/timeLineViewTop.js:409-426 | the new state is the old one redrawn with the given counts, with the same three outcomes |
| TimelineTop.TimelineTopView.ShowBuckets | js/timeLineViewTop.js:421-442 | the buckets from the start year on are kept, their extent becomes the domain, and the chart is rendered from that state |
| TimelineTop.TimelineTopView.RenderVis | js/timeLineViewTop.js:445-476 | a render leaves updates on; with the full range, no default brush under way and buckets, it brushes the default window of the domain and leaves it pending |
| TimelineTop.TimelineTopView.ApplyDefaultBrush | js/timeLineViewTop.js:479-525 | re-entry or no buckets changes nothing; otherwise updates pause and the default window is brushed and scheduled for announcement |
| TimelineTop.TimelineTopView.BrushDefaultWindow | js/timeLineViewTop.js:494-524 | the brush moves to the default window and that window is pending |
| TimelineTop.TimelineTopView.MoveBrush | js/timeLineViewTop.js:507 | the brush holds the given selection |
| TimelineTop.TimelineTopView.OnBrush | js/timeLineViewTop.js:140-153 | while suppressed nothing is announced; a selection is announced and marks a custom range |
| TimelineTop.TimelineTopView.OnBrushEnd | js/timeLineViewTop.js:154-176 | a selection is announced; a clear by the user announces the full extent, marks the full range and schedules a re-apply; other clears do nothing |
| TimelineTop.TimelineTopView.ReapplyTimer | js/timeLineViewTop.js:172-176 | the pending re-apply is used up and brushes the default window only when updates are on and no default brush is under way |
| TimelineTop.TimelineTopView.DefaultBrushTimer | js/timeLineViewTop.js:520-524 | updates resume, the flag clears and the pending window is announced |
| TimelineTop.TimelineTopView.ToggleWalkthrough | js/timeLineViewTop.js:224-236 | the button flips the walkthrough; stopping clears the interval, starting announces the first window |
| TimelineTop.TimelineTopView.StartWalkthrough | js/timeLineViewTop.js:239-331 | a second start changes nothing; a start arms one interval, places a one-year window at the walk start, remembers the domain end and announces the window |
| TimelineTop.TimelineTopView.BeginWalkthrough | js/timeLineViewTop.js:243-331 | the window, interval and announcement of a start |
| TimelineTop.TimelineTopView.BrushWindow | js/timeLineViewTop.js:270-285 | with updates paused the brush holds the window, which is announced as a custom range |
| TimelineTop.TimelineTopView.ArmWalkthrough | js/timeLineViewTop.js:288-330 | the window is recorded, one interval armed and updates resumed |
| TimelineTop.TimelineTopView.StopWalkthrough | js/timeLineViewTop.js:333-347 | the walkthrough is off and no interval is live; stopping an inactive walkthrough changes nothing |
| TimelineTop.TimelineTopView.WalkTick | js/timeLineViewTop.js:288-328 | each firing moves the window 7 days on; past the domain end the walkthrough stops, otherwise the new window is announced; the ticks left always decrease, so the walk ends |
| TimelineTop.TimelineTopView.StepWindow | js/timeLineViewTop.js:303-327 | the moved window is brushed, announced, and updates resume |
| TimelineDetail.DailyCountsSpec | js/timeLineViewDetail.js:161-171 | the fallback line is ascending, one point per release day at the day's start, each counting that day's releases |
| TimelineDetail.KeepEveryShape | js/timeLineViewDetail.js:208 | `filter((_, i) => i % k === 0)` keeps ceil(n / k) points, the j-th being point j·k |
| TimelineDetail.KeepEveryAtMost | js/timeLineViewDetail.js:207-208 | thinning n points with a step of at least n / m leaves at most m |
| TimelineDetail.Step | js/timeLineViewDetail.js:207 | the sampling rate is at least 1 and large enough to bring the points down to the target |
| TimelineDetail.DownsampleBound | js/timeLineViewDetail.js:202-212 | the displayed line has at most 650 points, keeps the first point and only shows points of the line |
| TimelineDetail.DotsBound | js/timeLineViewDetail.js:262-266 | fewer than 100 dots are drawn, and at most 50 when there are 100 points or more |
| TimelineDetail.DisplayAscending | js/timeLineViewDetail.js:183-212 | an ascending line stays ascending once windowed and thinned |
| TimelineDetail.XDomain | js/timeLineViewDetail.js:215-219 | the x domain is two valid dates; without a valid range it encloses every point of the line |
| TimelineDetail.MaxCount | js/timeLineViewDetail.js:222 | `d3.max`: a count no point exceeds and some point has |
| TimelineDetail.YTop | js/timeLineViewDetail.js:222 | the y domain's top is NaN exactly for no points, and otherwise 10% above every count |
| TimelineDetail.TicksMonotone | js/timeLineViewDetail.js:225-246 | a longer span never gets finer ticks; up to 14 days, ticks every one or two days |
| TimelineDetail.BisectLeft | js/timeLineViewDetail.js:308-309 | `bisector.left`: on an ascending line, the first index whose date is not before x |
| TimelineDetail.CloserIsNearest | js/timeLineViewDetail.js:314-318 | of the two neighbours of the bisection index, the one chosen is a nearest point to x |
| TimelineDetail.TimeLineDetailView.constructor | js/timeLineViewDetail.js:2-13 | no range at first; a non-empty line is drawn at once |
| TimelineDetail.TimeLineDetailView.UpdateVis | js/timeLineViewDetail.js:129-249 | no line changes nothing; an empty line is kept and nothing drawn; otherwise the window, display, scales and ticks follow from the line and range |
| TimelineDetail.TimeLineDetailView.SetLine | js/timeLineViewDetail.js:174-249 | the same three outcomes for a given line |
| TimelineDetail.TimeLineDetailView.ShowLine | js/timeLineViewDetail.js:183-249 | the window, display, scales and ticks follow from the line and range |
| TimelineDetail.TimeLineDetailView.HandleMouseMove | js/timeLineViewDetail.js:298-328 | on an ascending display, nothing is shown exactly when every point is before the pointer; otherwise a nearest displayed point is |
| Dashboard.FilterDataMembers | js/main.js:379-394 | a record is passed to the views exactly when it was loaded and, under a two-date range, lies in it |
| Dashboard.Placeholders | js/main.js:147-190 | five stand-in games are used before records are loaded |
| Dashboard.PlaceholdersDrawNothing | js/main.js:147-190 | the stand-ins have no peak player count, so the games view draws none of them |
| Dashboard.RescopeMatchesSelection | js/main.js:331-343 | after a time filter the games view holds the same games as choosing the selected bubble again |
| Dashboard.Page.constructor | js/main.js:60-130 | no record is loaded and every view is empty; the top timeline is in its first drawn state; the slider starts at its minimum and the other views' thresholds at 0; indie is shown everywhere; every view is drawn on its data |
| Dashboard.Page.FirstDraw | js/main.js:125-130 | the second round of first draws leaves the new page as it was, the top timeline in its first drawn state, and every view drawn |
| Dashboard.Page.DrawAll | js/main.js:409-416 | the top timeline is redrawn from its old state with the grouped counts unless the change came from its own brush (then its state is kept); the other four views are redrawn on their data; the records, thresholds, indie settings, games view and detail range stay |
| Dashboard.Page.Load | js/main.js:250-310 | records without a valid date are dropped; with none left no view changes and no listener is registered; otherwise the listeners are in place, every view holds and shows the records, and the top timeline is redrawn from its old state |
| Dashboard.Page.ShowRecords | js/main.js:308-313 | the records are drawn in every view, the top timeline is redrawn from its old state, and the later listeners are registered |
| Dashboard.Page.UpdateVisualizationState | js/main.js:397-417 | the filtered records go to the five views, which redraw; the top timeline is redrawn from its old state unless it raised the event, when its state is kept; the detail range stays |
| Dashboard.Page.AssignData | js/main.js:398-405 | each of the five views holds the filtered records and the top timeline's drawn state is untouched |
| Dashboard.Page.RefreshViews | js/main.js:412-416 | the detail timeline, publisher bubbles, scatter plot and list are redrawn on their data; their records, the detail range and the slider stay |
| Dashboard.Page.RefreshPanels | js/main.js:414-416 | the publisher bubbles, scatter plot and list are redrawn on their data |
| Dashboard.Page.FilterTime | js/main.js:313-345 | an invalid range changes nothing; otherwise the range becomes global, everything but the top timeline redraws, and the games view is re-scoped to the selected bubble |
| Dashboard.Page.RescopeGames | js/main.js:331-343 | with a bubble selected the games view gets that bubble's games among the filtered records |
| Dashboard.Page.SelectPublisher | js/main.js:138-211 | the scatter plot and list take the publisher up and redraw, the games view shows that publisher's games in the range, and the publisher view stays drawn |
| Dashboard.Page.PublisherListeners | js/scatterPlotView.js:17 | the listeners the scatter plot (here) and the list register in their constructors: both take the publisher up and redraw, the list from its first page |
| Dashboard.Page.ShowPublisherGames | js/main.js:138-211 | the games view is shown and holds the publisher's games in the range, and is drawn when it has any |
| Dashboard.Page.BackToPublishers | js/main.js:213-237 | the publisher filters are dropped, views redrawn and no game selected anywhere |
| Dashboard.Page.ClearPublisherFilter | js/main.js:226-232 | the scatter plot and list drop the publisher filter and redraw |
| Dashboard.Page.ClearGameSelection | js/main.js:234-236 | no game is selected in the games view, list or scatter plot |
| Dashboard.Page.SelectGame | js/main.js:347-354 | before loading nothing changes; once loaded every view selects the game, the publisher view selects its bubble and the scatter plot redraws; the publisher view and list stay drawn |
| Dashboard.Page.GameListeners | js/main.js:350-353 | the games view, scatter plot and list select the game; the scatter plot redraws and the list stays drawn |
| Dashboard.Page.ClickPublisher | js/publisherBubbleView.js:697-728 | a bubble click selects as the click outcome says, and the other views follow the announcement |
| Dashboard.Page.DragThreshold | js/publisherBubbleView.js:300-324 | the slider's threshold reaches the games view, scatter plot and list, and all four views redraw |
| Dashboard.Page.ThresholdListeners | js/gameBubbleView.js:19-22 | the listeners the games view (here), the scatter plot and the list register in their constructors: each takes the threshold and redraws |
| Dashboard.Page.ToggleIndie | js/publisherBubbleView.js:176-184 | the indie setting flips and reaches the other three views, and all four views redraw |
| Dashboard.Page.IndieListeners | js/gameBubbleView.js:25-28 | the listeners the games view (here), the scatter plot and the list register in their constructors: each takes the indie setting and redraws |
| Dashboard.Page.Announce | js/main.js:313-345 | an announced range reaches the time filter; nothing announced changes nothing; the top timeline is never changed by it |
| Dashboard.Page.BrushEvent | js/timeLineViewTop.js:140-176 | of the top timeline only the chosen-range flag and re-apply count change; a suppressed brush or a clear not by the user changes nothing; a selection becomes the global range; a user clear marks the full range, schedules a re-apply and makes the buckets' extent the global range |
| Dashboard.Page.DefaultBrushFired | js/timeLineViewTop.js:520-524 | updates resume, the default brush ends, and its pending window becomes the global range |
| Dashboard.Page.ReapplyFired | js/timeLineViewTop.js:172-176 | the pending re-apply is used up; paused or under a default brush the pending default stays, otherwise with buckets the default window of the domain becomes pending |
| Dashboard.Page.WalkthroughButton | js/timeLineViewTop.js:224-236 | the walkthrough flips; a start makes its first window the global range; a stop clears every interval and changes no view |
| Dashboard.Page.WalkthroughFired | js/timeLineViewTop.js:288-328 | each firing moves the window a week on; while the walkthrough runs the moved window becomes the global range; once it stops no interval is live and no view changes |

## Left out

- Drawing is left out: SVG, axes, areas, transitions, force simulation, tooltips, colours other than the scatter plot's fills, legends, pagination dots and headings other than the games view's title. The fade of the views on scroll (`main.js` 30-58) is left out too.
- CSV and JSON loading is left out. `Dashboard.Page.Load` takes the parsed records and the precomputed counts as values, and the parse of the precomputed rows is not modelled.
- Timers are left out as clocks. Arming a timer records a pending callback, and its firing is a method the page calls. Interleavings of real time are not modelled.
- Numbers are exact reals, not IEEE doubles. Rounding error and overflow are not modelled.
- Dates are integer UTC milliseconds, and the local time zone and daylight saving are left out.
- Games.AddYears: adds 365-day years. `setFullYear` skips leap days this way, so a window that crosses February 29th is one day short.
- Games.IsJsSpace: covers ASCII white space, U+00A0, U+FEFF, U+2028 and U+2029. The other Unicode space separators that `trim` removes are not covered.
- Games.ToLower: lower-cases ASCII letters only.
- GameBubble.Label: counts characters, where the source's `length` and `substring` count UTF-16 code units. A title with characters outside the Basic Multilingual Plane is cut at a different place.
- The brush's pixel positions and the time scale's `invert` are the identity on dates. The left clamp of the default brush at pixel 0 is the clamp at the domain start.
- ScatterPlot.MarkOf: the random horizontal jitter (`Math.random`) is left out.
- The threshold and indie relays registered in `main.js` 357-374 are left out. The views' own listeners already take the events up first. The relays then call namespaced event types that a d3 dispatcher does not know.
- Dashboard.Page.FilterTime: a range with an invalid date changes nothing. In the source the listener throws while logging that range, before changing anything.
- The fallback groupings key only valid dates. Records with an invalid date are dropped at load, so no NaN key arises.
- Events that reach a listener before the records are loaded are modelled by the `loaded` flag only. The order of page load against the fetch is not modelled.
- Dashboard.Placeholders: only the id, price and a missing peak count of the stand-in games are modelled. Their other fields draw nothing.
- TimelineDetail.TimeLineDetailView.HandleMouseMove: the nearest-point promise is stated for an ascending display only. The fallback line is proved ascending, but the precomputed daily rows are not known to be. A pointer past the last point shows nothing (None), as in the source.
- Dashboard.RescopeMatchesSelection: excludes a publisher literally named "Indie". The `selectPublisher` listener reads that name as the indie category, while the `filterTime` listener reads it as a publisher.
- Dashboard.Page.BackToPublishers: the publisher view's own bubble selection is kept, as in the source.
