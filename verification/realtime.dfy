/** The real-time tab (components/real-time-tab.tsx): a symbol search box, a 30-minute cache in
    `localStorage` keyed by symbol, and a fetch of a quote and a daily price series from the Twelve Data
    API whose replies are validated before they reach the screen. Storage, the clock, the API key and
    the two replies are parameters. */
module RealTime {
  import opened Common
  import opened Text
  import opened Gtm
  import Csv

  /** How long a cached reply is served: 30 minutes, in milliseconds. */
  const CacheDuration: int := 1000 * 60 * 30

  const CachePrefix: string := "realtime_"
  const InitialSymbol: string := "QQQ"
  const QuoteErrorDefault: string := "No data found for this symbol."
  const SeriesErrorDefault: string := "Failed to fetch historical data."
  const FetchError: string := "Failed to fetch data."
  const PriceChartId: string := "price_trend_chart"

  /** `realtime_${symbol}`. */
  function CacheKey(symbol: string): (key: string)
    ensures |key| == |CachePrefix| + |symbol|
    ensures key[..|CachePrefix|] == CachePrefix && key[|CachePrefix|..] == symbol
  {
    CachePrefix + symbol
  }

  /** Distinct symbols never share a cache entry. */
  lemma {:induction false} CacheKeyInjective(a: string, b: string)
    requires CacheKey(a) == CacheKey(b)
    ensures a == b
  {
    assert a == CacheKey(a)[|CachePrefix|..];
  }

  /** One point of the price chart: `{ date: v.datetime, price: parseFloat(v.close) }`. */
  datatype PricePoint = PricePoint(date: string, price: Option<real>)

  /** `{ currentPrice, dailyChange, dailyChangePercent }`, each a parsed number or NaN. */
  datatype Quote = Quote(currentPrice: Option<real>, dailyChange: Option<real>, dailyChangePercent: Option<real>)

  /** A cached reply: `{ priceData, realTimeData, time }`. */
  datatype CacheEntry = CacheEntry(priceData: seq<PricePoint>, realTimeData: Quote, time: int)

  /** `localStorage`, with entries already decoded. */
  type Storage = map<string, CacheEntry>

  /** The decoded JSON of the quote endpoint; absent fields are `None`. */
  datatype QuoteReply = QuoteReply(status: Option<string>, message: Option<string>, close: Option<string>,
                                   change: Option<string>, percentChange: Option<string>)

  /** One entry of the series endpoint's `values`, newest first. */
  datatype SeriesValue = SeriesValue(datetime: string, close: string)

  /** The decoded JSON of the time-series endpoint. */
  datatype SeriesReply = SeriesReply(status: Option<string>, message: Option<string>, values: Option<seq<SeriesValue>>)

  /** A request's result: the decoded body, or a rejection of `fetch` or `json()` that lands in the `catch`. */
  datatype Reply<T> = Replied(body: T) | Unreachable

  /** A string field JavaScript treats as true: present and non-empty. */
  predicate Truthy(s: Option<string>) {
    s.Some? && s.value != []
  }

  /** `message || fallback`. */
  function MessageOr(message: Option<string>, fallback: string): (m: string)
    ensures Truthy(message) ==> m == message.value
    ensures !Truthy(message) ==> m == fallback
    ensures fallback != [] ==> m != []
  {
    if Truthy(message) then message.value else fallback
  }

  /** `quoteData.status === "error" || !quoteData.close`. */
  predicate QuoteRejected(q: QuoteReply) {
    q.status == Some("error") || !Truthy(q.close)
  }

  /** `timeSeriesData.status === "error" || !timeSeriesData.values`; an empty array passes. */
  predicate SeriesRejected(s: SeriesReply) {
    s.status == Some("error") || s.values.None?
  }

  /** `parseFloat` of a field that may be absent (`parseFloat(undefined)` is NaN). */
  function ParseOptional(field: Option<string>, parse: Csv.Parser): (x: Option<real>)
    ensures field.None? ==> x.None?
  {
    if field.Some? then parse(field.value) else None
  }

  /** `s.reverse()`. */
  function Reverse<T>(s: seq<T>): (r: seq<T>)
    ensures |r| == |s|
    ensures forall i :: 0 <= i < |s| ==> r[i] == s[|s| - 1 - i]
  {
    seq(|s|, i requires 0 <= i < |s| => s[|s| - 1 - i])
  }

  /** Reversing twice restores the order. */
  lemma {:induction false} ReverseReverse<T>(s: seq<T>)
    ensures Reverse(Reverse(s)) == s
  {
  }

  /** The chart's series: the API's values (newest first) reversed to oldest first, each mapped to a point. */
  function PriceSeries(values: seq<SeriesValue>, parse: Csv.Parser): (ps: seq<PricePoint>)
    ensures |ps| == |values|
    ensures forall i :: 0 <= i < |values| ==>
      ps[i] == PricePoint(values[|values| - 1 - i].datetime, parse(values[|values| - 1 - i].close))
  {
    var oldestFirst := Reverse(values);
    seq(|values|, i requires 0 <= i < |values| => PricePoint(oldestFirst[i].datetime, parse(oldestFirst[i].close)))
  }

  /** The real-time figures of an accepted quote. */
  function QuoteOf(q: QuoteReply, parse: Csv.Parser): Quote {
    Quote(ParseOptional(q.close, parse), ParseOptional(q.change, parse), ParseOptional(q.percentChange, parse))
  }

  /** What the tab shows: the error message (empty for none), the series and the figures (`null` is `None`). */
  datatype View = View(error: string, priceData: seq<PricePoint>, realTimeData: Option<Quote>)

  /** The result of one run of the effect: what is shown and the storage afterwards. */
  datatype Outcome = Outcome(view: View, storage: Storage)

  /** A cached entry is served when it exists and is younger than 30 minutes. */
  predicate Fresh(storage: Storage, key: string, now: int) {
    key in storage && now - storage[key].time < CacheDuration
  }

  /** An error view: the message, no series, no figures. */
  function Failure(message: string, storage: Storage): Outcome {
    Outcome(View(message, [], None), storage)
  }

  /** One run of `fetchData` for `symbol`. `now` is the clock when the cache is checked and `savedAt`
      when the entry is written; `canStore` is false when `localStorage.setItem` throws. */
  function FetchData(symbol: string, storage: Storage, now: int, savedAt: int, hasApiKey: bool,
                     quote: Reply<QuoteReply>, series: Reply<SeriesReply>, canStore: bool,
                     parse: Csv.Parser): (o: Outcome)
    ensures Fresh(storage, CacheKey(symbol), now) ==>
      o == Outcome(View("", storage[CacheKey(symbol)].priceData, Some(storage[CacheKey(symbol)].realTimeData)), storage)
    ensures !Fresh(storage, CacheKey(symbol), now) && !hasApiKey ==> o == Failure(FetchError, storage)
    ensures o.view.error != [] <==> o.view.realTimeData.None?
    ensures o.view.error != [] ==> o.view.priceData == [] && o.storage == storage
    ensures forall k <- o.storage.Keys :: k != CacheKey(symbol) ==> k in storage && o.storage[k] == storage[k]
    ensures storage.Keys <= o.storage.Keys
  {
    var key := CacheKey(symbol);
    if Fresh(storage, key, now) then
      Outcome(View("", storage[key].priceData, Some(storage[key].realTimeData)), storage)
    else if !hasApiKey then Failure(FetchError, storage)
    else match quote
      case Unreachable => Failure(FetchError, storage)
      case Replied(q) =>
        if QuoteRejected(q) then Failure(MessageOr(q.message, QuoteErrorDefault), storage)
        else match series
          case Unreachable => Failure(FetchError, storage)
          case Replied(s) =>
            if SeriesRejected(s) then Failure(MessageOr(s.message, SeriesErrorDefault), storage)
            else if !canStore then Failure(FetchError, storage)
            else
              var prices := PriceSeries(s.values.value, parse);
              var figures := QuoteOf(q, parse);
              Outcome(View("", prices, Some(figures)), storage[key := CacheEntry(prices, figures, savedAt)])
  }

  /** A rejected quote shows the API's message or the default, clears the data, and the series
      request is never made: its reply does not matter. */
  lemma {:induction false} RejectedQuote(symbol: string, storage: Storage, now: int, savedAt: int, q: QuoteReply,
                                         series1: Reply<SeriesReply>, series2: Reply<SeriesReply>, canStore: bool,
                                         parse: Csv.Parser)
    requires !Fresh(storage, CacheKey(symbol), now) && QuoteRejected(q)
    ensures var o := FetchData(symbol, storage, now, savedAt, true, Replied(q), series1, canStore, parse);
      && o == Failure(MessageOr(q.message, QuoteErrorDefault), storage)
      && o == FetchData(symbol, storage, now, savedAt, true, Replied(q), series2, canStore, parse)
  {
  }

  /** A rejected series shows the API's message or the default and clears the data. */
  lemma {:induction false} RejectedSeries(symbol: string, storage: Storage, now: int, savedAt: int, q: QuoteReply,
                                          s: SeriesReply, canStore: bool, parse: Csv.Parser)
    requires !Fresh(storage, CacheKey(symbol), now) && !QuoteRejected(q) && SeriesRejected(s)
    ensures FetchData(symbol, storage, now, savedAt, true, Replied(q), Replied(s), canStore, parse)
      == Failure(MessageOr(s.message, SeriesErrorDefault), storage)
  {
  }

  /** On success the series is the API's values in reverse order, the figures are the quote's, and the
      cache entry for the symbol is written with the time of writing. */
  lemma {:induction false} SuccessfulFetch(symbol: string, storage: Storage, now: int, savedAt: int, q: QuoteReply,
                                           s: SeriesReply, parse: Csv.Parser)
    requires !Fresh(storage, CacheKey(symbol), now) && !QuoteRejected(q) && !SeriesRejected(s)
    ensures var o := FetchData(symbol, storage, now, savedAt, true, Replied(q), Replied(s), true, parse);
      && o.view.error == []
      && |o.view.priceData| == |s.values.value|
      && (forall i :: 0 <= i < |s.values.value| ==>
            o.view.priceData[i].date == s.values.value[|s.values.value| - 1 - i].datetime)
      && o.view.priceData == PriceSeries(s.values.value, parse)
      && o.view.realTimeData == Some(QuoteOf(q, parse))
      && o.storage == storage[CacheKey(symbol) := CacheEntry(o.view.priceData, QuoteOf(q, parse), savedAt)]
  {
  }

  /** What a successful run caches is what a later run within 30 minutes of the write shows, whatever
      the API key and the replies are then. */
  lemma {:induction false} CacheRoundTrip(symbol: string, storage: Storage, now: int, savedAt: int, q: QuoteReply,
                                          s: SeriesReply, parse: Csv.Parser,
                                          later: int, later2: int, key2: bool, quote2: Reply<QuoteReply>,
                                          series2: Reply<SeriesReply>, canStore2: bool, parse2: Csv.Parser)
    requires !Fresh(storage, CacheKey(symbol), now) && !QuoteRejected(q) && !SeriesRejected(s)
    requires later - savedAt < CacheDuration
    ensures var first := FetchData(symbol, storage, now, savedAt, true, Replied(q), Replied(s), true, parse);
      var second := FetchData(symbol, first.storage, later, later2, key2, quote2, series2, canStore2, parse2);
      second == first
  {
  }

  /** The tab's state: the shown symbol, the search box and what is displayed. */
  datatype State = State(symbol: string, input: string, view: View)

  const Initial: State := State(InitialSymbol, InitialSymbol, View("", [], None))

  /** `setInput(e.target.value)`. */
  function SetInput(st: State, text: string): (r: State)
    ensures r.input == text && r.symbol == st.symbol && r.view == st.view
  {
    st.(input := text)
  }

  /** `handleSearch`: the trimmed, upper-cased input becomes the symbol when it is non-empty and differs
      from the current one, and that search is reported to the data layer (with no result count). */
  function HandleSearch(st: State, w: Window): (r: (State, Window))
    ensures r.0.input == st.input && r.0.view == st.view
  {
    var query := ToUpper(Trim(st.input));
    if Trim(st.input) != [] && query != st.symbol then
      (st.(symbol := query), TrackSearchPerformed(w, query, None))
    else (st, w)
  }

  /** The symbol changes exactly when the trimmed input is non-empty and its upper case differs; the
      new symbol is that upper case, and in a browser exactly one `search_performed` record carrying it
      is appended to the log; otherwise nothing changes. */
  lemma {:induction false} HandleSearchSpec(st: State, w: Window)
    ensures var (r, w2) := HandleSearch(st, w);
      && (r.symbol != st.symbol <==> Trim(st.input) != [] && ToUpper(Trim(st.input)) != st.symbol)
      && (r.symbol != st.symbol ==> r.symbol == ToUpper(Trim(st.input)))
      && (r.symbol == st.symbol ==> w2 == w)
      && (r.symbol != st.symbol && w.Browser? ==>
            && Log(w2)[..|Log(w)|] == Log(w) && |Log(w2)| == |Log(w)| + 1
            && HasName(Log(w2)[|Log(w)|], SearchPerformed)
            && Log(w2)[|Log(w)|]["search_query"] == Str(r.symbol))
  {
  }

  /** Submitting the same input twice searches once: the second submission changes nothing. */
  lemma {:induction false} HandleSearchIdempotent(st: State, w: Window, w': Window)
    ensures var (r, _) := HandleSearch(st, w);
      HandleSearch(r, w') == (r, w')
  {
  }

  /** A searched symbol holds no lower-case ASCII letter and starts and ends with a non-space. */
  lemma {:induction false} SearchedSymbolIsNormal(st: State, w: Window)
    requires HandleSearch(st, w).0.symbol != st.symbol
    ensures var s := HandleSearch(st, w).0.symbol;
      && s != []
      && (forall i :: 0 <= i < |s| ==> !('a' <= s[i] <= 'z'))
      && !IsSpace(s[0]) && !IsSpace(s[|s| - 1])
  {
    HandleSearchSpec(st, w);
    var t := Trim(st.input);
    assert !IsSpace(t[0]) && !IsSpace(t[|t| - 1]);
    UpperKeepsSpace(t[0]);
    UpperKeepsSpace(t[|t| - 1]);
  }

  /** Upper-casing turns no character into white space. */
  lemma {:induction false} UpperKeepsSpace(c: char)
    requires !IsSpace(c)
    ensures !IsSpace(UpperChar(c))
  {
  }

  /** The effect that runs when the symbol changes: the view becomes the fetch's view. */
  function Load(st: State, storage: Storage, now: int, savedAt: int, hasApiKey: bool, quote: Reply<QuoteReply>,
                series: Reply<SeriesReply>, canStore: bool, parse: Csv.Parser): (r: (State, Storage))
    ensures r.0.symbol == st.symbol && r.0.input == st.input
  {
    var o := FetchData(st.symbol, storage, now, savedAt, hasApiKey, quote, series, canStore, parse);
    (st.(view := o.view), o.storage)
  }

  /** `isPositive`: there are figures and the daily change percentage is a number above 0. */
  predicate IsPositive(v: View) {
    v.realTimeData.Some? && v.realTimeData.value.dailyChangePercent.Some?
      && v.realTimeData.value.dailyChangePercent.value > 0.0
  }

  /** A run that ends in an error never shows the rising indicator; a successful run shows it exactly
      when the quote's percentage parses to a number above 0. */
  lemma {:induction false} IsPositiveAfterFetch(symbol: string, storage: Storage, now: int, savedAt: int,
                                                hasApiKey: bool, quote: Reply<QuoteReply>, series: Reply<SeriesReply>,
                                                canStore: bool, parse: Csv.Parser)
    ensures var o := FetchData(symbol, storage, now, savedAt, hasApiKey, quote, series, canStore, parse);
      && (o.view.error != [] ==> !IsPositive(o.view))
      && (!Fresh(storage, CacheKey(symbol), now) && o.view.error == [] ==>
            (IsPositive(o.view) <==>
              var p := ParseOptional(quote.body.percentChange, parse); p.Some? && p.value > 0.0))
  {
  }

  /** `handleChartClick` and `handleChartHover`: one `chart_interaction` record for the price chart. */
  function HandleChart(w: Window, action: ChartAction): (r: Window)
    ensures w.Browser? ==> |Log(r)| == |Log(w)| + 1 && HasName(Log(r)[|Log(w)|], ChartInteraction)
    ensures w.Browser? ==> Log(r)[..|Log(w)|] == Log(w)
    ensures w.Browser? ==> var e := Log(r)[|Log(w)|]; "chart_id" in e && e["chart_id"] == Str(PriceChartId)
    ensures w.NoWindow? ==> r == w
  {
    TrackChartInteraction(w, PriceChartId, action)
  }
}
