/** The data layer of lib/gtm.ts: `window.dataLayer` is an append-only log of event records that Google
    Tag Manager reads; each tracker pushes one record whose `event` field names it. Outside a browser
    (`typeof window === 'undefined'`) every tracker does nothing. */
module Gtm {
  import opened Common

  /** A field value of an event record. `Undefined` is a key present with the value `undefined`. */
  datatype Value = Str(s: string) | Num(n: real) | Undefined

  /** An event record: `{ event: ..., key: value, ... }`. */
  type Event = map<string, Value>

  /** One call `window.gtag(command, target, params)`. */
  datatype GtagCall = GtagCall(command: string, target: string, params: map<string, Value>)

  /** The global object: absent during server rendering, or a browser window whose `dataLayer` may not
      exist yet and whose `gtag` may be undefined. `gtagCalls` records the calls made to `gtag`. */
  datatype Window =
    | NoWindow
    | Browser(dataLayer: Option<seq<Event>>, hasGtag: bool, gtagCalls: seq<GtagCall>)

  /** The two chart actions a `trackChartInteraction` call accepts. */
  datatype ChartAction = Hover | Click

  /** The two states of the real-time toggle. */
  datatype Toggle = On | Off

  const VirtualPageView: string := "virtual_page_view"
  const SearchPerformed: string := "search_performed"
  const ChartInteraction: string := "chart_interaction"
  const CardClick: string := "card_click"
  const RealTimeToggle: string := "real_time_toggle"

  /** The event names the tag manager's five custom-event triggers filter on, in the order they are declared. */
  const TriggerEvents: seq<string> :=
    ["virtual_page_view", "search_performed", "chart_interaction", "card_click", "real_time_toggle"]

  /** A record whose `event` field is `name`. */
  predicate HasName(e: Event, name: string) {
    "event" in e && e["event"] == Str(name)
  }

  /** The records pushed so far: none when there is no window or no array yet. */
  function Log(w: Window): seq<Event> {
    if w.Browser? && w.dataLayer.Some? then w.dataLayer.value else []
  }

  /** `window.dataLayer = window.dataLayer || []`; without a window the access throws (`None`). */
  function InitDataLayer(w: Window): (r: Option<Window>)
    ensures w.NoWindow? <==> r.None?
    ensures r.Some? ==> r.value.Browser? && r.value.dataLayer.Some?
    ensures r.Some? ==> Log(r.value) == Log(w)
    ensures r.Some? ==> r.value.hasGtag == w.hasGtag && r.value.gtagCalls == w.gtagCalls
  {
    match w
    case NoWindow => None
    case Browser(layer, g, calls) => Some(Browser(Some(layer.GetOr([])), g, calls))
  }

  /** Initialising twice is initialising once, and an existing array is kept as it is. */
  lemma {:induction false} InitDataLayerIdempotent(w: Window)
    requires w.Browser?
    ensures InitDataLayer(InitDataLayer(w).value) == InitDataLayer(w)
    ensures w.dataLayer.Some? ==> InitDataLayer(w) == Some(w)
  {
  }

  /** The body shared by every tracker: with a window, initialise the data layer and push `e`. */
  function Push(w: Window, e: Event): (r: Window)
    ensures w.NoWindow? ==> r == w
    ensures w.Browser? ==> r.Browser? && Log(r) == Log(w) + [e]
    ensures w.Browser? ==> r.hasGtag == w.hasGtag && r.gtagCalls == w.gtagCalls
  {
    match InitDataLayer(w)
    case None => w
    case Some(Browser(layer, g, calls)) => Browser(Some(layer.GetOr([]) + [e]), g, calls)
    case Some(NoWindow) => w
  }

  /** The log only grows: after any push, the earlier log is a prefix of the new one. */
  lemma {:induction false} PushKeepsEarlier(w: Window, e: Event)
    ensures Log(w) <= Log(Push(w, e))
    ensures |Log(Push(w, e))| <= |Log(w)| + 1
  {
  }

  /** `trackVirtualPageView(pagePath, pageTitle)`. */
  function TrackVirtualPageView(w: Window, pagePath: string, pageTitle: string): (r: Window)
    ensures w.NoWindow? ==> r == w
    ensures w.Browser? ==> Log(r) == Log(w) + [map["event" := Str(VirtualPageView), "page_path" := Str(pagePath), "page_title" := Str(pageTitle)]]
  {
    Push(w, map["event" := Str(VirtualPageView), "page_path" := Str(pagePath), "page_title" := Str(pageTitle)])
  }

  /** `trackSearchPerformed(searchQuery, resultCount?)`: an omitted count is pushed as `undefined`. */
  function TrackSearchPerformed(w: Window, searchQuery: string, resultCount: Option<real>): (r: Window)
    ensures w.NoWindow? ==> r == w
    ensures w.Browser? ==> |Log(r)| == |Log(w)| + 1 && Log(r)[..|Log(w)|] == Log(w)
    ensures w.Browser? ==> var e := Log(r)[|Log(w)|];
      && e.Keys == {"event", "search_query", "result_count"}
      && e["event"] == Str(SearchPerformed) && e["search_query"] == Str(searchQuery)
      && e["result_count"] == (if resultCount.Some? then Num(resultCount.value) else Undefined)
  {
    var count := if resultCount.Some? then Num(resultCount.value) else Undefined;
    Push(w, map["event" := Str(SearchPerformed), "search_query" := Str(searchQuery), "result_count" := count])
  }

  /** `trackChartInteraction(chartId, action)`. */
  function TrackChartInteraction(w: Window, chartId: string, action: ChartAction): (r: Window)
    ensures w.NoWindow? ==> r == w
    ensures w.Browser? ==> Log(r) == Log(w) + [map["event" := Str(ChartInteraction), "chart_id" := Str(chartId),
                                                     "action" := Str(if action == Hover then "hover" else "click")]]
  {
    var a := match action case Hover => "hover" case Click => "click";
    Push(w, map["event" := Str(ChartInteraction), "chart_id" := Str(chartId), "action" := Str(a)])
  }

  /** `trackCardClick(cardId, sentiment)`. */
  function TrackCardClick(w: Window, cardId: string, sentiment: string): (r: Window)
    ensures w.NoWindow? ==> r == w
    ensures w.Browser? ==> Log(r) == Log(w) + [map["event" := Str(CardClick), "card_id" := Str(cardId), "sentiment" := Str(sentiment)]]
  {
    Push(w, map["event" := Str(CardClick), "card_id" := Str(cardId), "sentiment" := Str(sentiment)])
  }

  /** `trackRealTimeToggle(status)`. */
  function TrackRealTimeToggle(w: Window, status: Toggle): (r: Window)
    ensures w.NoWindow? ==> r == w
    ensures w.Browser? ==> Log(r) == Log(w) + [map["event" := Str(RealTimeToggle), "status" := Str(if status == On then "on" else "off")]]
  {
    var s := match status case On => "on" case Off => "off";
    Push(w, map["event" := Str(RealTimeToggle), "status" := Str(s)])
  }

  /** `trackCustomEvent(eventName, parameters)`: `{ event: eventName, ...parameters }`, so a parameter
      named `event` replaces the name. */
  function TrackCustomEvent(w: Window, eventName: string, parameters: map<string, Value>): (r: Window)
    ensures w.NoWindow? ==> r == w
    ensures w.Browser? ==> |Log(r)| == |Log(w)| + 1 && Log(r)[..|Log(w)|] == Log(w)
    ensures w.Browser? ==> var e := Log(r)[|Log(w)|];
      && e.Keys == parameters.Keys + {"event"}
      && (forall k <- parameters.Keys :: e[k] == parameters[k])
      && ("event" !in parameters ==> e["event"] == Str(eventName))
  {
    Push(w, map["event" := Str(eventName)] + parameters)
  }

  /** `setUserProperties(properties)`: one `gtag('set', 'user_properties', properties)` call when `gtag`
      exists; the log is never touched. */
  function SetUserProperties(w: Window, properties: map<string, Value>): (r: Window)
    ensures Log(r) == Log(w)
    ensures w.Browser? && w.hasGtag ==> r == w.(gtagCalls := w.gtagCalls + [GtagCall("set", "user_properties", properties)])
    ensures !(w.Browser? && w.hasGtag) ==> r == w
  {
    if w.Browser? && w.hasGtag then w.(gtagCalls := w.gtagCalls + [GtagCall("set", "user_properties", properties)])
    else w
  }

  /** Which tracker a call is, with its arguments: the named trackers of the module. */
  datatype Tracker =
    | PageView(pagePath: string, pageTitle: string)
    | Search(searchQuery: string, resultCount: Option<real>)
    | Chart(chartId: string, action: ChartAction)
    | Card(cardId: string, sentiment: string)
    | RealTime(status: Toggle)

  /** Runs one tracker call. */
  function Track(w: Window, t: Tracker): Window {
    match t
    case PageView(p, title) => TrackVirtualPageView(w, p, title)
    case Search(q, n) => TrackSearchPerformed(w, q, n)
    case Chart(id, a) => TrackChartInteraction(w, id, a)
    case Card(id, s) => TrackCardClick(w, id, s)
    case RealTime(s) => TrackRealTimeToggle(w, s)
  }

  /** The fixed event name of each tracker. */
  function EventName(t: Tracker): string {
    match t
    case PageView(_, _) => VirtualPageView
    case Search(_, _) => SearchPerformed
    case Chart(_, _) => ChartInteraction
    case Card(_, _) => CardClick
    case RealTime(_) => RealTimeToggle
  }

  /** Every tracker call in a browser appends exactly one record, named by its tracker and matched by
      one of the tag manager's triggers, and leaves every earlier record and the `gtag` calls alone. */
  lemma {:induction false} TrackAppendsOne(w: Window, t: Tracker)
    requires w.Browser?
    ensures var r := Track(w, t);
      && r.Browser?
      && |Log(r)| == |Log(w)| + 1
      && Log(r)[..|Log(w)|] == Log(w)
      && Log(r)[|Log(w)|]["event"] == Str(EventName(t))
      && EventName(t) in TriggerEvents
      && r.gtagCalls == w.gtagCalls
  {
  }

  /** A sequence of tracker calls appends one record per call, in call order. */
  function TrackAll(w: Window, ts: seq<Tracker>): Window
    decreases |ts|
  {
    if |ts| == 0 then w else TrackAll(Track(w, ts[0]), ts[1..])
  }

  /** One tracker call, as the induction over a sequence of calls needs it. */
  lemma {:induction false} TrackStep(w: Window, t: Tracker)
    requires w.Browser?
    ensures var r := Track(w, t);
      && r.Browser? && |Log(r)| == |Log(w)| + 1 && Log(r)[..|Log(w)|] == Log(w)
      && HasName(Log(r)[|Log(w)|], EventName(t))
  {
    TrackAppendsOne(w, t);
  }

  /** The records of `log` are named after the calls of `ts`, one each, in order. */
  ghost predicate NamedBy(log: seq<Event>, ts: seq<Tracker>)
    decreases |ts|
  {
    && |log| == |ts|
    && (|ts| == 0 || (HasName(log[0], EventName(ts[0])) && NamedBy(log[1..], ts[1..])))
  }

  /** `NamedBy`, position by position. */
  lemma {:induction false} NamedByAt(log: seq<Event>, ts: seq<Tracker>)
    requires NamedBy(log, ts)
    ensures |log| == |ts| && forall i :: 0 <= i < |ts| ==> HasName(log[i], EventName(ts[i]))
    decreases |ts|
  {
    if |ts| > 0 {
      NamedByAt(log[1..], ts[1..]);
      forall i | 0 < i < |ts|
        ensures HasName(log[i], EventName(ts[i]))
      {
        assert log[i] == log[1..][i - 1] && ts[i] == ts[1..][i - 1];
      }
    }
  }

  /** One step of the induction over a sequence of calls, on the logs alone: the first call appended one
      record named after it to `a`, giving `b`, and the rest appended theirs to `b`, giving `c`. */
  lemma {:induction false} LogStep(a: seq<Event>, b: seq<Event>, c: seq<Event>, ts: seq<Tracker>)
    requires 0 < |ts|
    requires |b| == |a| + 1 && b[..|a|] == a && HasName(b[|a|], EventName(ts[0]))
    requires |b| <= |c| && c[..|b|] == b && NamedBy(c[|b|..], ts[1..])
    ensures c[..|a|] == a && NamedBy(c[|a|..], ts)
  {
    assert c[..|a|] == c[..|b|][..|a|];
    assert c[|a|..][0] == c[..|b|][|a|];
    assert c[|a|..][1..] == c[|b|..];
  }

  /** The records a sequence of calls appends, without the names spelled out position by position. */
  lemma {:induction false} TrackAllNamed(w: Window, ts: seq<Tracker>)
    requires w.Browser?
    ensures var r := TrackAll(w, ts);
      && r.Browser? && |Log(w)| <= |Log(r)| && Log(r)[..|Log(w)|] == Log(w)
      && NamedBy(Log(r)[|Log(w)|..], ts)
    decreases |ts|
  {
    if |ts| == 0 {
      assert Log(w)[|Log(w)|..] == [];
    } else {
      var w1 := Track(w, ts[0]);
      TrackStep(w, ts[0]);
      TrackAllNamed(w1, ts[1..]);
      assert TrackAll(w, ts) == TrackAll(w1, ts[1..]);
      LogStep(Log(w), Log(w1), Log(TrackAll(w, ts)), ts);
    }
  }

  /** A sequence of tracker calls in a browser appends one record per call, in call order, each named
      after its call, behind the unchanged earlier log. */
  lemma {:induction false} TrackAllLog(w: Window, ts: seq<Tracker>)
    requires w.Browser?
    ensures var r := TrackAll(w, ts);
      && r.Browser?
      && |Log(r)| == |Log(w)| + |ts|
      && Log(r)[..|Log(w)|] == Log(w)
      && forall i :: 0 <= i < |ts| ==> HasName(Log(r)[|Log(w)| + i], EventName(ts[i]))
  {
    TrackAllNamed(w, ts);
    var r := TrackAll(w, ts);
    NamedByAt(Log(r)[|Log(w)|..], ts);
  }

  /** Outside a browser no sequence of calls changes anything. */
  lemma {:induction false} TrackAllWithoutWindow(ts: seq<Tracker>)
    ensures TrackAll(NoWindow, ts) == NoWindow
    decreases |ts|
  {
    if |ts| > 0 {
      assert Track(NoWindow, ts[0]) == NoWindow by {
        match ts[0]
        case PageView(_, _) =>
        case Search(_, _) =>
        case Chart(_, _) =>
        case Card(_, _) =>
        case RealTime(_) =>
      }
      TrackAllWithoutWindow(ts[1..]);
    }
  }

  /** The five tracker names are the five trigger names, and they are pairwise distinct, so each
      trigger fires for exactly one tracker. */
  lemma {:induction false} TrackersMatchTriggers()
    ensures TriggerEvents == [VirtualPageView, SearchPerformed, ChartInteraction, CardClick, RealTimeToggle]
    ensures forall i, j :: 0 <= i < j < |TriggerEvents| ==> TriggerEvents[i] != TriggerEvents[j]
  {
  }
}
