# ETF dashboard data pipelines in Dafny

This project models the data pipelines hidden inside the tabs of the ETF analytics dashboard, a React/Next.js application written in TypeScript. Each tab's `useEffect` fetches a CSV file or an API reply, cleans it and derives chart data. This project models those steps as pure functions over immutable sequences and proves what the dashboard promises about them.

- **Naive CSV reading** (module `Csv`, with `Text` and `Common`).
  - Split the text on `"\n"` and keep the non-blank lines.
  - Skip the header line.
  - Split each line on every comma, with no regard for quoting (this is not RFC 4180).
  - Strip every double quote and read fields by position.
  - `Number.parseFloat` is a parameter `string -> Option<real>`, where `None` is NaN.
  - The idioms `x || d` and `x * 100 || 0` are `OrDefault` and `Percent`.
- **Overview tab** (modules `Overview` and `Histogram`).
  - The KPI rows with their defaults.
  - The trailing P/E list with its 0 < v < 200 filter and 12-value fallback.
  - The dividend yields.
  - `createHistogram` over half-open bins.
  - The fallback data when a fetch fails or a row throws.
- **Top-performers tab** (modules `TopPerformers` and `Sorting`): three top-20 rankings, each one:
  - filters the records with a positive metric;
  - sorts them in descending order with a stable sort;
  - keeps the first 20.
- **Category-performance tab** (module `CategoryPerformance`).
  - Three stable descending orderings.
  - The top-ten combined chart.
  - The best-category cards with their hard-coded fallbacks.
- **Real-time tab** (module `RealTime`): a small state machine.
  - A cache keyed by `realtime_<symbol>` with a 30-minute freshness window.
  - Search-box normalisation and change detection.
  - Validation of the quote and time-series replies.
  - Reversal of the series.
  - `isPositive`.
- **News-sentiment tab** (module `Sentiment`).
  - The four-band colour classifier.
  - The constant score tables.
- **Data layer** (module `Gtm`): `window.dataLayer` as an append-only log of event records.
  - The five trackers with their fixed event names.
  - `trackCustomEvent` and `setUserProperties`.
  - The tag manager's trigger names.

The ranking and category sorts use `(a, b) => b.metric - a.metric`. `Array.prototype.sort` is stable (ECMAScript 2019 and later), so each sort is modelled as one stable descending insertion sort over items paired with their metric (`Sorting.Keyed`). Stability is stated with `Ties(s, k)`, the subsequence of elements whose metric is `k`.

Behaviour of the code worth noting:

- Fields are read by fixed position, never by header name.
- A blank overview body does not fall back: the loop never reads the header line, so the KPIs stay 0 (`Overview.BlankOverviewShowsZeros`).
- A missing API key does not show a blocking message of its own. The thrown message is replaced by "Failed to fetch data." in the `catch`.
- The cache window is exactly 30 minutes.
- There is no rate-limit countdown.

## Model

| member | source | states |
|---|---|---|
| Common.Filter | components/top-performers-tab.tsx:58 | the kept elements all satisfy the predicate, and each one that does keeps its full multiplicity |
| Common.FilterAppend | components/top-performers-tab.tsx:58 | filtering a concatenation is the concatenation of the filtered parts |
| Common.FilterOne | components/top-performers-tab.tsx:58 | a single element is kept exactly when it satisfies the predicate |
| Common.Min | components/top-performers-tab.tsx:60 | the length `slice(0, n)` keeps is one of the two bounds and at most both |
| Text.Trim | components/overview-tab.tsx:33 | the result is the slice of the line left after removing exactly its leading and trailing ECMAScript white space: everything outside the slice is white space and the slice (when non-empty) starts and ends with a non-space; it is empty, hence falsy, exactly when the line is blank |
| Text.SplitSpec | components/overview-tab.tsx:40 | a split has one more piece than there are separators, and no piece holds the separator |
| Text.JoinSplit | components/overview-tab.tsx:40 | joining the pieces of a split with the separator restores the text |
| Text.Split | components/overview-tab.tsx:40 | specified by SplitSpec, JoinSplit, SplitJoin and SplitAppend: the pieces between separators, in order |
| Text.SplitJoin | components/overview-tab.tsx:40 | splitting a join of separator-free pieces gives back exactly those pieces |
| Text.SplitNoSeparator | components/overview-tab.tsx:53 | a text without the separator splits into itself alone |
| Text.SplitPrefix | components/overview-tab.tsx:40 | a separator-free prefix before a separator becomes the first piece |
| Text.SplitAppend | components/overview-tab.tsx:33 | splitting at one separator splits the two sides independently, so a text is split line by line, in order |
| Text.RemoveAllSpec | components/overview-tab.tsx:41 | `replace(/"/g, "")` leaves no quote and every other character keeps its count; their order is stated by RemoveAllAppend |
| Text.RemoveAll | components/overview-tab.tsx:41 | specified by RemoveAllSpec and RemoveAllAppend: every quote is removed and nothing else, order kept |
| Text.RemoveAllAppend | components/overview-tab.tsx:41 | removal works character by character: it distributes over concatenation, and a single character is dropped exactly when it is the removed one, so the kept characters stay in order |
| Text.RemoveAllAbsent | components/overview-tab.tsx:41 | removing an absent character changes nothing, so stripping quotes twice equals stripping once |
| Text.ToUpper | components/real-time-tab.tsx:100 | upper-casing keeps the length, maps each character through the ASCII rule, and leaves no lower-case letter |
| Text.ToUpperIdempotent | components/real-time-tab.tsx:100 | upper-casing twice equals upper-casing once |
| Csv.Lines | components/overview-tab.tsx:33 | no kept line is blank, and every non-blank piece of the split is kept with all its occurrences |
| Csv.LinesAppend | components/overview-tab.tsx:33 | the lines of two texts joined by a newline are the lines of each, in order |
| Csv.LinesOfOneLine | components/overview-tab.tsx:33 | a text without a newline is one line, kept exactly when it is not blank |
| Csv.LinesEmptyIffBlank | components/top-performers-tab.tsx:26-27 | there is no line at all, so `lines[0]` is undefined, exactly when the body is blank |
| Csv.DataLines | components/top-performers-tab.tsx:37 | the loop visits non-blank lines, one fewer than there are lines, and none when there is no line |
| Csv.DataLinesAfterHeader | components/top-performers-tab.tsx:26-37 | below a non-blank header line, the loop visits exactly the lines of the rest of the body, in order |
| Csv.Fields | components/top-performers-tab.tsx:38 | a line always has at least one field |
| Csv.QuotedCommaSplits | components/top-performers-tab.tsx:38 | a quoted field holding a comma is cut in two at that comma, with each half keeping one quote |
| Csv.Field | components/top-performers-tab.tsx:39-40 | `values[i]?.replace(/"/g, "")` is defined exactly when the line has more than `i` fields, and is then `values[i]` with every quote removed: no quote is left and every other character keeps its count |
| Csv.NumberField | components/top-performers-tab.tsx:41-43 | an absent field parses to NaN; a present one is `values[i]` with its quotes removed, then parsed |
| Csv.OrDefault | components/overview-tab.tsx:45-49 | `x \|\| d` is the parsed number when it is a non-zero number, and `d` when it is NaN or 0; never 0 when `d` is not |
| Csv.RawNumberField | components/category-performance-tab.tsx:45 | an absent field parses to NaN, and a field without quotes reads the same as through the quote-stripping `NumberField` |
| Csv.Percent | components/top-performers-tab.tsx:41-42 | `x * 100 \|\| 0` is 100 times the parsed fraction, and 0 for NaN |
| Histogram.CountInIsPositions | components/overview-tab.tsx:141 | a bin's count is the number of positions holding a value v with min ≤ v < max |
| Histogram.CountIn | components/overview-tab.tsx:141 | specified by CountInIsPositions and CountSplit: the number of values v with min ≤ v < max |
| Histogram.CreateHistogram | components/overview-tab.tsx:135-143 | one bar per bin, in bin order, each carrying its bin's label and counting the values in [min, max) |
| Histogram.CountSplit | components/overview-tab.tsx:141 | counts over [a, b) and [b, c) add up to the count over [a, c), so a value equal to `b` lands only in the second bin |
| Histogram.HistogramTotal | components/overview-tab.tsx:139-142 | the bars add up to the sum of the bins' counts |
| Histogram.SumContiguous | components/overview-tab.tsx:77-84 | over contiguous bins the counts add up to the count over the covered interval |
| Histogram.ContiguousTotal | components/overview-tab.tsx:77-94 | over contiguous bins the bars add up to the count over the covered interval, and values outside it are counted nowhere |
| Histogram.ExactlyOneBin | components/overview-tab.tsx:77-84 | in contiguous bins a covered value lies in exactly one bin and any other value in none |
| Overview.DividendBins | components/overview-tab.tsx:77-84 | six contiguous dividend bins covering [0, 10) |
| Overview.PeBins | components/overview-tab.tsx:86-94 | seven contiguous P/E bins covering only [0, 100) |
| Overview.StripBrackets | components/overview-tab.tsx:51 | a leading `[` and a trailing `]` are removed, each on its own or both together (a lone `[` or `]` becomes empty), nothing else is, and no character is added |
| Overview.AdmittedPe | components/overview-tab.tsx:52-58 | every admitted P/E value lies strictly between 0 and 200, with at most one per piece |
| Overview.AdmittedPeAppend | components/overview-tab.tsx:52-58 | the pieces are mapped and filtered one at a time: admitting over two lists admits over each, in order |
| Overview.AdmittedPeOfOne | components/overview-tab.tsx:54-58 | one piece is kept, as the parse of its trimmed text, exactly when that parse is a number in (0, 200) |
| Overview.PeValues | components/overview-tab.tsx:51-62 | the P/E list is the admitted values of the bracket-stripped, comma-split value when there is at least one, and the 12-value fallback exactly when there is none |
| Overview.Classify | components/overview-tab.tsx:44-50 | each of the four metric names selects its own branch, and only that name does; any other name selects none |
| Overview.Kpi | components/overview-tab.tsx:45-49 | a KPI is its field's parsed value when that is a non-zero number, and the default when the field is absent, NaN or 0 |
| Overview.ReadRow | components/overview-tab.tsx:40-63 | specified by ReadRowEffect: one pass of the metric loop |
| Overview.ReadRows | components/overview-tab.tsx:39-64 | specified by ReadRowsThrows, ReadRowsKpi, ReadRowsPe and ReadRowsSpec: the metric loop over the data lines, in order |
| Overview.ReadRowEffect | components/overview-tab.tsx:40-63 | a row throws exactly when it is a distribution row without a second field; otherwise it sets only its own KPI or the P/E list |
| Overview.ReadRowsThrows | components/overview-tab.tsx:39-64 | the metric loop fails exactly when some distribution row has no value |
| Overview.ReadRowsKpi | components/overview-tab.tsx:44-49 | each KPI is set by the last row of its name, and keeps its value when there is none |
| Overview.ReadRowsPe | components/overview-tab.tsx:50-63 | the P/E list is set by the last distribution row, and kept when there is none |
| Overview.ReadRowsSpec | components/overview-tab.tsx:33-64 | from the initial state: each KPI is the last row's value or its default (0 without a row), and the P/E list is the last distribution row's (empty without one) |
| Overview.ValueHasNoComma | components/overview-tab.tsx:40-42 | the value field of a comma-split line holds no comma |
| Overview.PeRowKeepsAtMostOne | components/overview-tab.tsx:40-62 | a distribution row yields at most one P/E value or the fallback list, because the bracketed list was already cut at its first comma |
| Overview.DividendYields | components/overview-tab.tsx:66-75 | every kept dividend yield is above 0, at most one per line; the exact content is stated by DividendYieldsAppend and DividendYieldsOfOne |
| Overview.DividendYieldsAppend | components/overview-tab.tsx:69-75 | the lines are read one at a time: the yields of two runs of lines are those of each, in line order |
| Overview.DividendYieldsOfOne | components/overview-tab.tsx:70-74 | a line contributes its fifth field, quote-stripped and parsed, exactly when that is a number above 0 |
| Overview.LoadOverview | components/overview-tab.tsx:21-126 | a failed fetch or a throwing row gives the fallback data; the result always has 6 dividend bars and 7 P/E bars |
| Overview.LoadOverviewSpec | components/overview-tab.tsx:33-102 | KPIs come from the last rows; the dividend chart is the histogram of the yields over the dividend bins and the P/E chart the histogram of the last distribution row's values over the P/E bins; bars carry the bins' labels, dividend bars total the yields below 10, and P/E bars total the P/E values below 100 |
| Overview.PeBarsCountValuesBelowHundred | components/overview-tab.tsx:86-94 | the P/E bars count only values below 100 |
| Overview.PeBetweenHundredAndTwoHundredIsLost | components/overview-tab.tsx:58-94 | a P/E value in [100, 200) passes the filter yet lies in no bin |
| Overview.BlankOverviewShowsZeros | components/overview-tab.tsx:33-39 | a blank overview body gives KPIs of 0 and empty P/E bars, not the fallback data |
| Sorting.Insert | components/top-performers-tab.tsx:59 | inserting into a non-increasing sequence keeps it non-increasing and adds exactly the new element |
| Sorting.SortDesc | components/top-performers-tab.tsx:59 | the sort is a permutation of its input, in non-increasing metric order |
| Sorting.InsertTies | components/top-performers-tab.tsx:59 | an inserted element goes after every element with the same metric |
| Sorting.FirstTie | components/category-performance-tab.tsx:58-59 | the first element with a given metric, in input order, is the first of that metric's ties |
| Sorting.SortKeepsTies | components/top-performers-tab.tsx:57-60 | stability: for every metric value, the elements with that value keep their input order |
| Sorting.PrefixIsTop | components/top-performers-tab.tsx:57-60 | no element left out of the first n of the sort has a metric above the n-th |
| Sorting.ItemsPermutation | components/top-performers-tab.tsx:57-61 | rearranging keyed pairs rearranges their records |
| TopPerformers.ParseEtf | components/top-performers-tab.tsx:37-53 | a line gives a record exactly when its quote-stripped symbol is non-empty; returns are 100 × the fraction (0 for NaN); the yield is unscaled (0 for NaN) |
| TopPerformers.ParseEtfs | components/top-performers-tab.tsx:37-54 | at most one record per line, each with a non-empty symbol; which records, in what order, is stated by ParseEtfsAppend and ParseEtfsOfOne |
| TopPerformers.ParseEtfsAppend | components/top-performers-tab.tsx:37-54 | the lines are read one at a time: the records of two runs of lines are those of each, in line order |
| TopPerformers.ParseEtfsOfOne | components/top-performers-tab.tsx:38-53 | a line gives its record when it has one, and nothing otherwise |
| TopPerformers.Candidates | components/top-performers-tab.tsx:58 | each candidate is paired with its own metric, which is above 0 |
| TopPerformers.CandidatesAppend | components/top-performers-tab.tsx:58 | the filter works record by record: the candidates of two runs of records are those of each, in input order |
| TopPerformers.CandidatesOfOne | components/top-performers-tab.tsx:58 | one record is a candidate, paired with its metric, exactly when that metric is above 0 |
| TopPerformers.CandidatesAreThePositive | components/top-performers-tab.tsx:58 | the candidates are exactly the records with a positive metric, with their multiplicities |
| TopPerformers.CandidatesFromInput | components/top-performers-tab.tsx:58 | the candidates' records are a sub-multiset of the parsed records |
| TopPerformers.Ranked | components/top-performers-tab.tsx:57-60 | specified by RankingShape, RankingIsTop and RankingIsStable: the first 20 candidates of the stable descending sort |
| TopPerformers.Ranking | components/top-performers-tab.tsx:61 | one `{ etf, value }` per ranked record, carrying its symbol and metric |
| TopPerformers.RankingShape | components/top-performers-tab.tsx:57-73 | a ranking holds min(20, number of positive records) entries, each with its record's positive metric, in non-increasing order |
| TopPerformers.RankingFromInput | components/top-performers-tab.tsx:57-73 | the ranked records are a sub-multiset of the parsed records |
| TopPerformers.RankingIsTop | components/top-performers-tab.tsx:57-60 | no positive record left out of a ranking has a metric above the last entry's |
| TopPerformers.RankingIsStable | components/top-performers-tab.tsx:57-60 | the ranked records with a given metric are the first candidates with that metric, in candidate order, which CandidatesAppend ties to input order |
| TopPerformers.Fallback | components/top-performers-tab.tsx:80-150 | the fallback has 20 entries per ranking |
| TopPerformers.LoadTopPerformers | components/top-performers-tab.tsx:20-150 | a failed fetch or a blank body (`lines[0].split` throws) gives the fallback; otherwise the three rankings of the parsed records |
| CategoryPerformance.ParseCategory | components/category-performance-tab.tsx:41-47 | a line gives a record exactly when its category is non-empty; returns are 100 × the fraction (0 for NaN); assets are the unstripped field's number (0 for NaN) |
| CategoryPerformance.ParseCategories | components/category-performance-tab.tsx:40-55 | at most one record per line, each with a non-empty category; which records, in what order, is stated by ParseCategoriesAppend and ParseCategoriesOfOne |
| CategoryPerformance.ParseCategoriesAppend | components/category-performance-tab.tsx:40-55 | the lines are read one at a time: the records of two runs of lines are those of each, in line order |
| CategoryPerformance.ParseCategoriesOfOne | components/category-performance-tab.tsx:41-54 | a line gives its record when it has one, and nothing otherwise |
| CategoryPerformance.QuotedAssetsReadAsZero | components/category-performance-tab.tsx:45 | a quoted assets field counts as 0 under `parseFloat`'s rejection of a leading quote |
| CategoryPerformance.SortedBy | components/category-performance-tab.tsx:58-59 | specified by SortedByIsOrderedPermutation and SortedByIsStable: a stable descending copy of the records |
| CategoryPerformance.SortedByIsOrderedPermutation | components/category-performance-tab.tsx:58-59 | each ordering is a permutation of the kept records, non-increasing by its metric |
| CategoryPerformance.SortedByIsStable | components/category-performance-tab.tsx:58-59 | records with equal metrics keep their input order |
| CategoryPerformance.Points | components/category-performance-tab.tsx:79-92 | one bar per record, carrying its name and the chart's metric |
| CategoryPerformance.BestOf | components/category-performance-tab.tsx:71-78 | with no records the card is "Technology" with its default value |
| CategoryPerformance.BestIsMaximal | components/category-performance-tab.tsx:58-78 | with records, the card is the first record in input order whose metric is at least every other's: its name (or "Technology" when empty), and its metric unless that is 0 (then the default) |
| CategoryPerformance.HeadIsMaximal | components/category-performance-tab.tsx:58-59 | the first record of a descending ordering has a metric at least every record's |
| CategoryPerformance.HeadIsFirstMaximal | components/category-performance-tab.tsx:58-59 | the first record of a stable descending ordering is the first record, in input order, with the largest metric |
| CategoryPerformance.FirstOfSortedIsFirstTie | components/category-performance-tab.tsx:58-59 | the first record of the ordering is the first, in input order, of the records sharing its metric |
| CategoryPerformance.CombinedTop | components/category-performance-tab.tsx:62-67 | the combined chart holds min(10, n) groups |
| CategoryPerformance.CombinedTopFollowsThreeYear | components/category-performance-tab.tsx:62-67 | the combined chart is the first min(10, n) bars of the 3-year chart, each with its record's 5-year return |
| CategoryPerformance.Fallback | components/category-performance-tab.tsx:97-136 | every fallback list holds 10 entries |
| CategoryPerformance.FallbackCountDisagrees | components/category-performance-tab.tsx:112 | the fallback's `totalCategories` (12) differs from the length of its lists |
| CategoryPerformance.Build | components/category-performance-tab.tsx:69-94 | `totalCategories` is the number of kept records; each chart is the bars of its own stable descending ordering (3-year, 5-year, assets), the combined chart is the top of the 3-year ordering, and each best card is taken from its own ordering |
| CategoryPerformance.LoadCategories | components/category-performance-tab.tsx:24-136 | a failed fetch or a blank body gives the fallback; otherwise the data built from the parsed records |
| RealTime.CacheKey | components/real-time-tab.tsx:27 | the key is `realtime_` followed by the symbol |
| RealTime.CacheKeyInjective | components/real-time-tab.tsx:27 | distinct symbols never share a cache entry |
| RealTime.Fresh | components/real-time-tab.tsx:28-31 | specified by FetchData and CacheRoundTrip: an entry younger than 30 minutes is served |
| RealTime.MessageOr | components/real-time-tab.tsx:47 | `message \|\| fallback` is the message when it is a non-empty string and the fallback otherwise |
| RealTime.Reverse | components/real-time-tab.tsx:68 | the i-th element of the reversal is the i-th from the end |
| RealTime.ReverseReverse | components/real-time-tab.tsx:68 | reversing twice restores the series |
| RealTime.PriceSeries | components/real-time-tab.tsx:68-69 | the chart series has as many points as the API values, in reverse order, each with its date and parsed close |
| RealTime.FetchData | components/real-time-tab.tsx:24-91 | a fresh cache entry is shown with no request; without an API key the error is "Failed to fetch data."; an error always comes with no data; only the symbol's cache entry can change |
| RealTime.RejectedQuote | components/real-time-tab.tsx:46-52 | an error status or missing close shows the API message or "No data found for this symbol.", clears the data, and makes no series request |
| RealTime.RejectedSeries | components/real-time-tab.tsx:59-65 | a rejected series shows the API message or "Failed to fetch historical data." and clears the data |
| RealTime.SuccessfulFetch | components/real-time-tab.tsx:67-84 | on success the series is the API values reversed, each point carrying its date and parsed close, the figures are the quote's, and the cache entry is written with the write time |
| RealTime.QuoteOf | components/real-time-tab.tsx:72-80 | specified by SuccessfulFetch: the shown figures are the quote's three parsed fields |
| RealTime.CacheRoundTrip | components/real-time-tab.tsx:28-84 | a run within 30 minutes of a successful write shows what that write cached, whatever the key and replies are then |
| RealTime.SetInput | components/real-time-tab.tsx:124 | typing changes only the search box |
| RealTime.HandleSearch | components/real-time-tab.tsx:98-107 | a search never touches the box or the shown data |
| RealTime.HandleSearchSpec | components/real-time-tab.tsx:100-106 | the symbol changes exactly when the trimmed input is non-empty and its upper case differs; the new symbol is that upper case, and exactly one `search_performed` record carrying it is logged |
| RealTime.HandleSearchIdempotent | components/real-time-tab.tsx:100-102 | submitting the same input twice searches once |
| RealTime.SearchedSymbolIsNormal | components/real-time-tab.tsx:100-101 | a searched symbol is non-empty, has no lower-case ASCII letter and no white space at either end |
| RealTime.Load | components/real-time-tab.tsx:23-94 | fetching never changes the symbol or the search box |
| RealTime.IsPositive | components/real-time-tab.tsx:96 | specified by IsPositiveAfterFetch |
| RealTime.IsPositiveAfterFetch | components/real-time-tab.tsx:96 | `isPositive` is false after an error; after a fetched success it holds exactly when the percent change parses above 0 |
| RealTime.HandleChart | components/real-time-tab.tsx:110-116 | a chart click or hover logs one `chart_interaction` record for `price_trend_chart` |
| Sentiment.BandOf | components/news-sentiment-tab.tsx:27-32 | the band is given by the thresholds 0.3, 0 and -0.3, each open from below |
| Sentiment.SentimentColor | components/news-sentiment-tab.tsx:27-32 | s > 0.3 is #8b5cf6; 0 < s ≤ 0.3 is #a78bfa; -0.3 < s ≤ 0 is #c4b5fd; s ≤ -0.3 is #ddd6fe |
| Sentiment.ColoursDistinct | components/news-sentiment-tab.tsx:27-32 | the four colours are distinct, so each score gets exactly one |
| Sentiment.BandMonotone | components/news-sentiment-tab.tsx:27-32 | a higher score never lands in a lower band |
| Sentiment.Fills | components/news-sentiment-tab.tsx:57-58 | each bar is filled with the colour of its own score |
| Sentiment.TablesWithinAxis | components/news-sentiment-tab.tsx:7-25 | every constant score lies in [-1, 1], the charts' axis domain |
| Sentiment.BoundaryScoresTakeLowerBand | components/news-sentiment-tab.tsx:17-30 | scores exactly at 0.3 and -0.3 take the lower band |
| Gtm.InitDataLayer | lib/gtm.ts:12-14 | without a window the call throws; otherwise the data layer exists afterwards and its log and `gtag` are unchanged |
| Gtm.InitDataLayerIdempotent | lib/gtm.ts:12-14 | initialising twice is initialising once, and an existing array is kept |
| Gtm.Push | lib/gtm.ts:18-24 | with a window, exactly the record is appended at the end; without one, nothing changes |
| Gtm.PushKeepsEarlier | lib/gtm.ts:18-24 | the earlier log is a prefix of the new one, which is at most one record longer |
| Gtm.TrackVirtualPageView | lib/gtm.ts:17-26 | appends `{ event: 'virtual_page_view', page_path, page_title }`, or does nothing without a window |
| Gtm.TrackSearchPerformed | lib/gtm.ts:29-38 | appends one record with exactly the keys event, search_query and result_count, the count being `undefined` when omitted |
| Gtm.TrackChartInteraction | lib/gtm.ts:41-50 | appends `{ event: 'chart_interaction', chart_id, action }` with action hover or click |
| Gtm.TrackCardClick | lib/gtm.ts:53-62 | appends `{ event: 'card_click', card_id, sentiment }` |
| Gtm.TrackRealTimeToggle | lib/gtm.ts:65-73 | appends `{ event: 'real_time_toggle', status }` with status on or off |
| Gtm.Track | lib/gtm.ts:17-73 | specified by TrackAppendsOne: one call of the tracker named by the value |
| Gtm.TrackCustomEvent | lib/gtm.ts:83-91 | appends a record with the parameters' keys plus `event`; every parameter is kept, so a parameter `event` overrides the name |
| Gtm.SetUserProperties | lib/gtm.ts:76-80 | within lib/gtm.ts, never pushes to the log itself; makes one `gtag('set', 'user_properties', …)` call exactly when `gtag` exists. `gtag` is a separate channel here, although the page's own `gtag` (app/layout.tsx:29-30) pushes its arguments to the data layer |
| Gtm.TrackAppendsOne | lib/gtm.ts:17-73 | every tracker call appends one record named after its tracker, matched by a trigger, leaving earlier records and `gtag` calls alone |
| Gtm.TrackAll | lib/gtm.ts:17-73 | specified by TrackAllLog and TrackAllWithoutWindow: the calls in order |
| Gtm.TrackAllLog | lib/gtm.ts:17-73 | a sequence of calls appends one record per call, in call order, after the unchanged earlier log |
| Gtm.TrackAllWithoutWindow | lib/gtm.ts:17-73 | outside a browser no sequence of tracker calls changes anything |
| Gtm.TrackersMatchTriggers | analytics/configuration/configure_gtm.js:108-161 | the five trigger event names are the five tracker names, pairwise distinct |

## Left out

- `fetch`, `localStorage`, the clock, the API key and `JSON.parse` are parameters. A fetch is either a body or a rejection. The cache is a map of decoded entries. A corrupt cache entry, whose `JSON.parse` throws outside the `try`, is not modelled.
- `Number.parseFloat` is an abstract parser. IEEE-754 doubles, rounding of `* 100`, `Infinity`, and the NaN produced by `Infinity - Infinity` in a sort comparator are not modelled, because values are exact reals. `JSON.stringify` writes NaN as `null`; both are `None` here.
- `toUpperCase` is modelled for ASCII letters only. Unicode case mapping is outside the model.
- React state setters, the `loading` flags, `useEffect` scheduling and races between overlapping fetches on rapid symbol changes are not modelled: the model is sequential.
- JSX rendering, `toFixed` and `toLocaleDateString` formatting, and chart configuration are not modelled.
- The tag manager and GA4 provisioning scripts are not modelled. Only the five trigger event names of configure_gtm.js are.
- The page layout, script injection and the debug panel are not modelled.
- The header line is read by `lines[0].split(",")` but never used. The model only keeps the way an absent header throws.
- The tracked record's `name` is parsed but unused by the rankings. It is kept as an optional field.
- `categories.sort(...)` sorts in place after the 3-year and 5-year copies were taken. Values here are immutable, so the copies are unaffected by construction.
- TopPerformers.Fallback: states only the list lengths. The literal entries are fixed constants in the definition.
- CategoryPerformance.Fallback: states only the list lengths and the disagreeing count. The literal entries are fixed constants in the definition.
- CategoryPerformance.QuotedAssetsReadAsZero: assumes, as a precondition, that the parser reads no number from text starting with a double quote, because the parser is abstract.
- Gtm.SetUserProperties: `gtag` is a separate channel. The page's own `gtag` (app/layout.tsx:29-30) is `dataLayer.push(arguments)`, so in the shipped page the call does append an arguments record to the data layer; the claim that the log is untouched covers lib/gtm.ts only.
- RealTime.FetchData: a throwing `localStorage.setItem` is the flag `canStore`. The browser's storage quota is not modelled.
