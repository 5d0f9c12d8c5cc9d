# Greek earthquake dashboard — a verified model

The dashboard polls the seismicity RSS feed published at
geophysics.geol.uoa.gr every two minutes. It turns each feed item into an
earthquake record and keeps the records newest first. It filters them by a
time window and a magnitude band the user picks, shows the newest record as
a headline, lists the filtered records, and draws them on a map as markers
coloured by magnitude. Clicking a record selects it; the map then shows
that record alone.

This project models, in Dafny:

- `parseEarthquakeItem`: the six regular expressions are hand-written
  scanners with JavaScript's leftmost-match search. `parseFloat` is modelled
  on the captures it receives, and so are the fallbacks to 0 and to
  "Unknown location" (modules `Text`, `NumberParsing`, `Patterns`, `Feed`).
- The poll pipeline: parse every item, drop the rejected ones, then do a
  stable sort newest first (module `Pipeline`).
- `filterEarthquakes` and the two drop-down tables (module `Filters`).
- The `App` component's state as a class. Its methods are the events that
  change it: a poll that succeeds or fails, a change of either drop-down,
  a click, and the two effects that run after a render. Its functions are
  the values derived from it: the selected record, the latest record, the
  headline and the map's input (module `Dashboard`).
- The map's marker colour, its centre and one marker per record (module
  `EarthquakeMap`).

Modelling choices:

- Numbers are exact: `JsNumber` is a finite real or NaN.
- The clock is a parameter `now`, in milliseconds.
- JavaScript's `Date` parser is a parameter `parseDate` of type
  `string -> Option<int>`. It is applied to `pubDate + " GMT"`, as the code
  does.

Behaviours of the code that the model keeps:

- **Location of a typical item.** The item titled "M 4.5 - 10 km NE of X",
  with the description "Latitude: 38.5N Longitude: 23.1E Depth: 10km", is
  placed at "X". The distance pattern needs a closing `<`, which the
  description lacks, so the title pattern `of (.+)$` supplies the place.
  The "10 km NE" of the title never reaches the location: the title pattern
  captures only what follows "of " (`Feed.TypicalItem`).
- **The poll handler filters with the defaults.** It was created at mount,
  so it filters with the selections of the first render: the last 24 hours,
  all magnitudes. The re-filtering effect then applies the current
  selections. `Dashboard.Dashboard.CompletePoll` proves that the list ends
  in line with them.
- **An empty selected link is never cleared.** It is falsy, so the
  selection-clearing effect leaves it alone. `SelectionValid` allows it.
- **A magnitude between bands matches none.** A value such as 3.95 lies
  between the "Minor" and "Light" bands and is in neither. Every value with
  one decimal (as in the feed's examples) lies in exactly one band.

## Model

| member | source | states |
|---|---|---|
| Text.Trim | src/App.jsx:66 | `.trim()` yields a slice of its input that neither starts nor ends with white space |
| Text.TrimKeepsTrimmed | src/App.jsx:66 | trimming text that is already trimmed gives it back unchanged |
| NumberParsing.ParseFloat | src/App.jsx:67-69 | `parseFloat` on a run of digits and dots is NaN exactly when the run starts neither with a digit nor with a dot and a digit; otherwise it is never negative |
| NumberParsing.ParseRender | src/App.jsx:67-69 | reading back a rendered decimal numeral gives its exact value (round trip) |
| NumberParsing.ParseFloatStopsAtSecondDot | src/App.jsx:60 | for example, `parseFloat` reads "4.5.6" as 4.5: it stops at the second dot |
| NumberParsing.ParseFloatLeadingDot | src/App.jsx:60 | for example, `parseFloat` reads ".5" as 0.5: the whole part may be empty |
| NumberParsing.ParseFloatTrailingDot | src/App.jsx:60 | for every non-empty digit string `w`, `parseFloat` reads `w.` as the integer `w` |
| NumberParsing.ParseFloatOfLoneDot | src/App.jsx:60 | `parseFloat` gives NaN for a capture that is a lone dot |
| Patterns.MatchAt | src/App.jsx:52-69 | a match is at a position inside the text; a numeric capture is a non-empty run of digits and dots |
| Patterns.MatchAtCaptures | src/App.jsx:52-69 | every capture the scanner yields at a position is one the pattern's regular expression matches there (`Captures`, stated on the text itself) |
| Patterns.CapturesMatch | src/App.jsx:52-69 | conversely, wherever the regular expression matches with a capture, the scanner yields exactly that capture |
| Patterns.MagnitudeAt | src/App.jsx:60 | a magnitude capture is a non-empty run of digits and dots |
| Patterns.HemisphereNumberAt | src/App.jsx:67-68 | a latitude or longitude capture is a non-empty run of digits and dots |
| Patterns.DepthAt | src/App.jsx:69 | a depth capture is a non-empty run of digits and dots |
| Patterns.MagnitudeSound | src/App.jsx:60 | a magnitude capture means "M " stands at the position and the capture is the whole run of digits and dots after it |
| Patterns.HemisphereNumberSound | src/App.jsx:67-68 | a latitude or longitude capture means the tag stands at the position ignoring case, followed by the capture, a run of digits and dots, and then by one of the two hemisphere letters in either case |
| Patterns.HemisphereNumberFrom | src/App.jsx:67-68 | conversely, a tag, a run of digits and dots and a hemisphere letter at a position give exactly that run as the capture |
| Patterns.DepthSound | src/App.jsx:69 | a depth capture means "Depth: " stands at the position, followed by the capture, a run of digits and dots, and then by "km" |
| Patterns.DepthFrom | src/App.jsx:69 | conversely, "Depth: ", a run of digits and dots and "km" at a position give exactly that run as the capture |
| Patterns.LazyUntilLt | src/App.jsx:52 | a stop found by lazy `.+?<` is a `<` after at least one character, with no line terminator before it and no other `<` after the first character |
| Patterns.LazyFindsLt | src/App.jsx:52 | conversely, the first `<` reachable that way is exactly where the scan stops |
| Patterns.LazyFindsSomeLt | src/App.jsx:52 | whenever any `<` is reachable after at least one character without crossing a line terminator, the scan finds a stop |
| Patterns.DistanceHead | src/App.jsx:52 | the head `\d+\.?\d* km [NSEW]+ of ` is found only at a digit, with a non-empty number |
| Patterns.DistanceHeadSound | src/App.jsx:52 | a head found is a number with at most one dot, " km ", compass letters and " of " |
| Patterns.DistanceHeadFrom | src/App.jsx:52 | conversely, such a head at a position is found with exactly its number and letter lengths |
| Patterns.DistanceLocationAt | src/App.jsx:52 | a distance capture starts at a digit and is non-empty |
| Patterns.DistanceLocationSound | src/App.jsx:52 | a distance capture is a head followed by the lazy part up to the first reachable `<` |
| Patterns.DistanceFrom | src/App.jsx:52 | conversely, wherever those parts stand at a position, the capture is exactly the text up to that `<` |
| Patterns.TitleLocationAt | src/App.jsx:52 | a title capture is the whole rest of the text after "of " |
| Patterns.TitleLocationSound | src/App.jsx:52 | a title capture means "of " stands at the position and the capture is the non-empty rest, free of line terminators |
| Patterns.Leftmost | src/App.jsx:52-69 | the capture picked is one some position at or after the start yields |
| Patterns.LeftmostIsFirst | src/App.jsx:52-69 | the capture picked is the one at the first position at or after the start that yields any |
| Patterns.LeftmostSkips | src/App.jsx:52-69 | positions that yield nothing are passed over |
| Patterns.LeftmostNone | src/App.jsx:52-69 | nothing is picked exactly when no position at or after the start yields a capture |
| Patterns.Search | src/App.jsx:52-69 | the search from a position yields a well-formed numeric capture for numeric patterns |
| Patterns.FirstMatch | src/App.jsx:52-69 | `s.match(p)` yields a well-formed numeric capture for numeric patterns |
| Patterns.SearchIsLeftmost | src/App.jsx:52-69 | a match found is the one at the leftmost position at or after the start where the pattern matches |
| Patterns.SearchNoneWithoutMatch | src/App.jsx:52-69 | where the pattern matches at no position, the search finds nothing |
| Patterns.SearchNoneMeansNoMatch | src/App.jsx:52-69 | when the search finds nothing, the pattern matches at no position after the start |
| Patterns.SearchFindsFirst | src/App.jsx:52-69 | the search returns the capture at the first matching position |
| Patterns.FoundHere | src/App.jsx:52-69 | where the pattern matches, the search from there yields that match |
| Patterns.SkipNoMatch | src/App.jsx:52-69 | a position where the pattern does not match is passed over |
| Patterns.MatchNeedsFirstChar | src/App.jsx:52-69 | every pattern matches only where the first character of its literal text stands |
| Patterns.SkipNoStart | src/App.jsx:52-69 | positions where no match can begin are passed over by the search |
| Patterns.NoDistanceLocationWithoutLt | src/App.jsx:52 | text without `<` never yields a distance location |
| Feed.SourceText | src/App.jsx:51 | the content wins when non-empty, else the description when non-empty, else "" |
| Feed.NumberField | src/App.jsx:67-69 | a field whose pattern is absent is 0; no field is negative |
| Feed.Location | src/App.jsx:52-66 | the trimmed distance location if the text has one, else the trimmed title location, else "Unknown location" |
| Feed.ParseItem | src/App.jsx:49-76 | a record exists exactly when the title is present and the date parses; it carries that instant, the title and the link |
| Feed.NumbersNeverNegative | src/App.jsx:60-70 | no number of a parsed record is negative, whatever the hemisphere letter |
| Feed.AbsentFieldsDefault | src/App.jsx:51-70 | a missing field never rejects an item; it takes 0 or "Unknown location" |
| Feed.FieldsIndependent | src/App.jsx:60-69 | coordinates and depth depend only on the source text; magnitude only on the title |
| Feed.LatitudeOfFeedText | src/App.jsx:67 | in the feed's layout the latitude pattern captures the latitude numeral |
| Feed.LongitudeOfFeedText | src/App.jsx:68 | in the feed's layout the longitude pattern skips the latitude field and captures the longitude numeral |
| Feed.DepthOfFeedText | src/App.jsx:69 | in the feed's layout the depth pattern captures the depth numeral |
| Feed.MagnitudeField | src/App.jsx:60 | the magnitude of a title "M <numeral>" followed by anything but a digit or a dot is the numeral's exact value |
| Feed.MagnitudeOfTitle | src/App.jsx:60 | a title starting "M <numeral>" yields that numeral |
| Feed.RoundTrip | src/App.jsx:49-76 | an item written in the feed's layout from known numerals parses back to exactly those numbers |
| Feed.TitleLocationOf | src/App.jsx:52 | a title `<head>of <place>` in which no "of " starts inside the head is placed at `<place>` |
| Feed.TypicalItem | src/App.jsx:49-76 | the typical item parses to magnitude 4.5, latitude 38.5, longitude 23.1, depth 10, located at "X" |
| Feed.ItemWithoutDescription | src/App.jsx:51-70 | an empty description gives 0 for the coordinates and depth; the place comes from the title |
| Pipeline.ParseEach | src/App.jsx:131 | `.map` keeps the length and parses each item in its place |
| Pipeline.ParseEachAppend | src/App.jsx:131 | mapping distributes over concatenation |
| Pipeline.Records | src/App.jsx:132 | dropping the nulls keeps exactly the records present |
| Pipeline.RecordsAppend | src/App.jsx:132 | dropping nulls distributes over concatenation |
| Pipeline.ParseAll | src/App.jsx:130-132 | parsing a feed yields no more records than items |
| Pipeline.ParseAllContents | src/App.jsx:130-132 | the records kept are exactly the successful parses |
| Pipeline.ParseAllAppend | src/App.jsx:130-132 | no item's fate depends on the others |
| Pipeline.Insert | src/App.jsx:133 | one insertion step of the stable sort keeps newest-first order and adds exactly one record |
| Pipeline.SortByTimeDesc | src/App.jsx:133 | the sort yields a newest-first permutation of its input |
| Pipeline.InsertWithTime | src/App.jsx:133 | an insertion puts the record in front of the records with the same instant |
| Pipeline.SortKeepsFeedOrder | src/App.jsx:133 | stability: records with the same instant keep their feed order |
| Pipeline.LoadFeed | src/App.jsx:130-133 | the stored records are newest first and a permutation of the successful parses |
| Pipeline.LoadFeedContents | src/App.jsx:130-133 | the stored records are exactly the successful parses; the first is the newest |
| Pipeline.RecordsSkipNull | src/App.jsx:132 | a null between two stretches changes nothing |
| Pipeline.ParseAllSkipsRejected | src/App.jsx:53-58 | an item with no title or an invalid date contributes nothing |
| Pipeline.RejectedItemIgnored | src/App.jsx:130-133 | removing a rejected item from the feed leaves the stored records unchanged |
| Filters.FilterQuakes | src/App.jsx:89-102 | the result is no longer than the input and holds exactly the records that pass both tests |
| Filters.FilterAppend | src/App.jsx:91-101 | filtering distributes over concatenation |
| Filters.FilterInPlace | src/App.jsx:91-101 | each record keeps its place relative to the others |
| Filters.FilterOne | src/App.jsx:91-101 | a single record is kept exactly when it passes |
| Filters.FilterIdempotent | src/App.jsx:89-102 | filtering twice with the same clock and selections is filtering once |
| Filters.FilterNarrowing | src/App.jsx:89-102 | filtering first with looser selections changes nothing |
| Filters.FilterKeepsSorted | src/App.jsx:89-102 | a newest-first list stays newest first |
| Filters.TimeWindowBoundaries | src/App.jsx:93-94 | a record exactly `minutes` old passes and one a millisecond older fails; a future record fails; 0 minutes passes everything |
| Filters.MagnitudeBoundaries | src/App.jsx:97-98 | bounds are inclusive; NaN passes only "all magnitudes" |
| Filters.BandMembership | src/App.jsx:41-47 | each offered band admits exactly the values within its bounds |
| Filters.TenthsInExactlyOneBand | src/App.jsx:41-47 | a magnitude with one decimal lies in exactly one band; 3.95 lies in none |
| Filters.WindowScenario | src/App.jsx:33-38 | a record 31 minutes old is hidden by "Last 30 minutes" and shown by "Last hour" |
| Filters.DefaultsAreWidest | src/App.jsx:82-83 | every offered selection keeps a subset of what the defaults keep |
| Filters.RefilterDefaultView | src/App.jsx:150-154 | re-filtering the default view with any offered selection equals filtering all records with it |
| Dashboard.FindByLink | src/App.jsx:164 | `find` yields a record with the selected link exactly when the list holds one; a null id finds nothing |
| Dashboard.FindByLinkIsFirst | src/App.jsx:164 | the record found is the first with that link |
| Dashboard.Dashboard.constructor | src/App.jsx:79-84 | the initial state: no records, loading, the last 24 hours, all magnitudes, nothing selected |
| Dashboard.Dashboard.PollSucceeded | src/App.jsx:130-137 | stores the parsed feed newest first, filters it with the defaults, stops loading, leaves the selections alone |
| Dashboard.Dashboard.Store | src/App.jsx:135-137 | the three state updates of a successful poll keep the dashboard's invariant |
| Dashboard.Dashboard.PollFailed | src/App.jsx:138-141 | a failed poll only stops loading |
| Dashboard.Dashboard.ChangeTimeFilter | src/App.jsx:104-108 | the new window is stored and the list is filtered with it and the current band |
| Dashboard.Dashboard.ChangeMagnitudeFilter | src/App.jsx:110-114 | the new band is stored and the list is filtered with it and the current window |
| Dashboard.Dashboard.RefilterOnChange | src/App.jsx:150-154 | afterwards the list matches the current selections; with no records it is unchanged |
| Dashboard.Dashboard.ClickEarthquake | src/App.jsx:116-118 | a click toggles the selection; selecting a shown record gives a valid selection |
| Dashboard.Dashboard.RevalidateSelection | src/App.jsx:157-161 | a selection the list does not show is cleared; any other selection stays |
| Dashboard.Dashboard.CompletePoll | src/App.jsx:130-161 | after a poll and its effects, the list matches the current selections, and the selection is dropped exactly when it is a truthy link the new list does not show |
| Dashboard.Dashboard.SelectTimeWindow | src/App.jsx:104-108 | a new window followed by its effects: the list is the records filtered with the new window and the current band, and the selection is dropped exactly when it is a truthy link that list does not show |
| Dashboard.Dashboard.SelectMagnitudeBand | src/App.jsx:110-114 | a new band followed by its effects: the list is the records filtered with the current window and the new band, and the selection is dropped exactly when it is a truthy link that list does not show |
| Dashboard.SelectionAfterFilter | src/App.jsx:157-161 | a truthy selected link whose every record the selections reject is dropped after re-filtering; a link some kept record carries stays |
| Dashboard.ClearingTwiceAfterPoll | src/App.jsx:130-161 | for any window and band the drop-downs offer, clearing the selection over the default-filtered list and then over the re-filtered list leaves what clearing over the re-filtered list alone leaves |
| Dashboard.Dashboard.SelectedEarthquake | src/App.jsx:164 | the selected record is in the filtered list and has the selected link |
| Dashboard.Dashboard.LatestEarthquake | src/App.jsx:87 | the first record, present exactly when there are records; under the invariant it is the newest |
| Dashboard.Dashboard.Headline | src/App.jsx:213-233 | the latest record when there is one; else "Loading..." exactly while loading; else "No recent earthquakes" |
| Dashboard.Dashboard.MapEarthquakes | src/App.jsx:247 | the map gets the selected record alone, or else the whole filtered list |
| EarthquakeMap.MarkerColor | src/components/EarthquakeMap.jsx:26-31 | red from 6, orange in [5, 6), gold in [4, 5), green below 4 and for NaN, each in both directions |
| EarthquakeMap.SeverityCountsThresholds | src/components/EarthquakeMap.jsx:26-31 | a colour's rank is the number of thresholds 4, 5, 6 the magnitude reaches |
| EarthquakeMap.MarkerColorMonotone | src/components/EarthquakeMap.jsx:26-31 | a larger magnitude never gets a weaker colour |
| EarthquakeMap.MarkerColorExamples | src/components/EarthquakeMap.jsx:26-31 | 3.9 is green, 4 gold, 5.5 orange, 6 red |
| EarthquakeMap.Center | src/components/EarthquakeMap.jsx:34-36 | the centre value computed for the map's input: the first record's position, or (39.0742, 21.8243) for an empty list |
| EarthquakeMap.Markers | src/components/EarthquakeMap.jsx:48-55 | one marker per record, in order, at its position and coloured by its magnitude |
| EarthquakeMap.MarkersAppend | src/components/EarthquakeMap.jsx:48-55 | drawing two lists is drawing their concatenation |
| EarthquakeMap.FirstMarkerAtCenter | src/components/EarthquakeMap.jsx:34-55 | with records present, the first marker sits at the centre value computed for the map's input |
| EarthquakeMap.MapOfDashboard | src/App.jsx:247 | with a selection, the map draws exactly that record, and the centre value computed for that input is its position; otherwise it draws the filtered list, and the centre value computed is its newest record's position |

## Left out

- The HTTP request, the CORS proxy, the 10-second timeout and the RSS/XML parser: the model starts from the parsed items (`RawItem`).
- The two-minute timer and the clean-up on unmount. Polls that overlap in time are not modelled: each poll is one atomic event.
- JavaScript's `Date` parser and the clock are not modelled; both are parameters (`parseDate`, `now`).
- IEEE-754 floating point: numbers are exact decimals. Rounding, for instance in the division by 60000 in the time test, is not modelled; the test is stated exactly in milliseconds.
- Feed fields that are not strings (a `content` that is an object, a title that is a number): then `match` or `+` behave differently or throw, and the catch yields `null`. The title, the content and the description are here either absent or strings.
- Feed.RawItem: `link` and `pubDate` are always strings. In the code an item without a link is kept with `link` undefined; a click on it stores undefined, which is falsy, so the clearing effect never drops it, and `find` then picks the first shown record without a link. An item without `pubDate` passes the text "undefined GMT" to the date parser, which is the same as a `pubDate` of "undefined".
- `console.warn` and `console.error`, which do nothing observable for the model.
- `formatAthensTime` in src/utils/dateUtils.js: display only; src/utils/dateUtils.js is not part of this model.
- The list component (src/components/EarthquakeList.jsx): display only; it is not part of this model beyond the click it reports.
- `createCustomIcon`, the icon URLs, the tile layer, the popups, the theme and the rest of the JSX: presentation.
- React's batching and rendering order: each handler and effect is one method, and the effects are applied in the order of their declaration.
- The `key` props on markers and menu items, which affect only how React reconciles the list.
- EarthquakeMap.Center: the map keeps the centre it was created with. react-leaflet's `MapContainer` reads `center` only when the map is created, and src/App.jsx:247 creates it at the first render with an empty list, so the view opens at (39.0742, 21.8243) and later lists or selections do not move it. The model states the centre value computed on each render, not the view the user sees.
- Dashboard.Dashboard.CompletePoll: runs the clearing effect once, over the re-filtered list. React can run it first over the list the poll filtered with the defaults and then over the re-filtered list; `Dashboard.ClearingTwiceAfterPoll` proves the two orders agree for every window and band the drop-downs offer. `Valid` does not restrict the selections to those values.
- Patterns.MagnitudeAt: its own contract states only the shape of the capture; `MagnitudeSound` states what a capture is on the text and `CapturesMatch` that every match is found. These lemmas stay outside the contract so that searches over many positions need not carry them.
- Patterns.HemisphereNumberAt: its own contract states only the shape of the capture; `HemisphereNumberSound` states what a capture is on the text and `HemisphereNumberFrom` that every match is found. These lemmas stay outside the contract so that searches over many positions need not carry them.
- Patterns.DepthAt: its own contract states only the shape of the capture; `DepthSound` states what a capture is on the text and `DepthFrom` that every match is found. These lemmas stay outside the contract so that searches over many positions need not carry them.
- Patterns.DistanceLocationAt: its own contract states only the shape of the capture; `DistanceLocationSound` states what a capture is on the text and `DistanceFrom` that every match is found. These lemmas stay outside the contract so that searches over many positions need not carry them.
- Patterns.TitleLocationAt: its own contract states only the shape of the capture; `TitleLocationSound` states what a capture is on the text and `CapturesMatch` that every match is found. These lemmas stay outside the contract so that searches over many positions need not carry them.
- Text.Trim: states that the result is a slice without white space at either end, not that it is the longest such slice (the removed prefix and suffix are white space by `TrimStart` and `TrimEnd`).
