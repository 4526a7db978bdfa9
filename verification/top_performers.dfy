/** The top-performers tab (components/top-performers-tab.tsx): one record per data line with a
    symbol, then for each of three metrics the records with a positive metric, sorted by it
    (descending, stable) and cut to the first 20. */
module TopPerformers {
  import opened Common
  import opened Text
  import opened Csv
  import opened Sorting

  /** A parsed line. Returns are percentages; the dividend yield is read as is. */
  datatype Etf = Etf(symbol: string, name: Option<string>, threeYearReturn: real, fiveYearReturn: real, dividendYield: real)

  /** One bar of a ranking chart: `{ etf, return }` or `{ etf, yield }`. */
  datatype Entry = Entry(etf: string, value: real)

  /** What the tab renders. */
  datatype TopPerformersData = TopPerformersData(threeYearData: seq<Entry>, fiveYearData: seq<Entry>, dividendData: seq<Entry>)

  /** The three rankings. */
  datatype Metric = ThreeYear | FiveYear | Dividend

  /** How many entries a ranking keeps: `.slice(0, 20)`. */
  const TopCount: nat := 20

  /** The value a ranking orders by. */
  function MetricOf(e: Etf, m: Metric): real {
    match m
    case ThreeYear => e.threeYearReturn
    case FiveYear => e.fiveYearReturn
    case Dividend => e.dividendYield
  }

  /** The record of one data line. The returns are `parseFloat(...) * 100 || 0`, the yield
      `parseFloat(...) || 0`; the guard `!isNaN(threeYearReturn)` never rejects, since `|| 0` has
      already turned NaN into 0, so a line yields a record exactly when its symbol is non-empty. */
  function ParseEtf(line: string, parse: Parser): (r: Option<Etf>)
    ensures r.Some? <==> RemoveAll(Fields(line)[0], '"') != []
    ensures r.Some? ==> r.value.symbol == RemoveAll(Fields(line)[0], '"')
    ensures r.Some? ==> match NumberField(Fields(line), 2, parse)
      case Some(x) => r.value.threeYearReturn == 100.0 * x
      case None => r.value.threeYearReturn == 0.0
    ensures r.Some? ==> match NumberField(Fields(line), 3, parse)
      case Some(x) => r.value.fiveYearReturn == 100.0 * x
      case None => r.value.fiveYearReturn == 0.0
    ensures r.Some? ==> match NumberField(Fields(line), 4, parse)
      case Some(x) => r.value.dividendYield == x
      case None => r.value.dividendYield == 0.0
  {
    var values := Fields(line);
    var symbol := RemoveAll(values[0], '"');
    if symbol == [] then None
    else Some(Etf(symbol, Field(values, 1),
                  Percent(NumberField(values, 2, parse)),
                  Percent(NumberField(values, 3, parse)),
                  OrDefault(NumberField(values, 4, parse), 0.0)))
  }

  /** The records of the data lines, in line order. */
  function ParseEtfs(lines: seq<string>, parse: Parser): (etfs: seq<Etf>)
    ensures |etfs| <= |lines|
    ensures forall e <- etfs :: e.symbol != []
  {
    if |lines| == 0 then []
    else
      var init := ParseEtfs(lines[..|lines| - 1], parse);
      match ParseEtf(lines[|lines| - 1], parse)
      case Some(e) => init + [e]
      case None => init
  }

  /** The records are read one line at a time: the records of two runs of lines are those of each, in order. */
  lemma {:induction false} ParseEtfsAppend(a: seq<string>, b: seq<string>, parse: Parser)
    ensures ParseEtfs(a + b, parse) == ParseEtfs(a, parse) + ParseEtfs(b, parse)
    decreases |b|
  {
    if |b| == 0 {
      assert a + b == a;
    } else {
      assert (a + b)[..|a + b| - 1] == a + b[..|b| - 1];
      assert (a + b)[|a + b| - 1] == b[|b| - 1];
      ParseEtfsAppend(a, b[..|b| - 1], parse);
    }
  }

  /** One line gives its record when it has one, and nothing otherwise. */
  lemma {:induction false} ParseEtfsOfOne(l: string, parse: Parser)
    ensures ParseEtfs([l], parse) == if ParseEtf(l, parse).Some? then [ParseEtf(l, parse).value] else []
  {
    assert [l][..0] == [];
  }

  /** The records with a positive metric, in input order, each paired with that metric:
      `etfs.filter(etf => etf.metric > 0)`. */
  function Candidates(etfs: seq<Etf>, m: Metric): (c: seq<Keyed<Etf>>)
    ensures |c| <= |etfs|
    ensures forall i :: 0 <= i < |c| ==> c[i].key == MetricOf(c[i].item, m) && c[i].key > 0.0
  {
    if |etfs| == 0 then []
    else
      var e := etfs[|etfs| - 1];
      Candidates(etfs[..|etfs| - 1], m) + (if MetricOf(e, m) > 0.0 then [Keyed(MetricOf(e, m), e)] else [])
  }

  /** The records are filtered one at a time: the candidates of two runs of records are those of
      each, in order. */
  lemma {:induction false} CandidatesAppend(a: seq<Etf>, b: seq<Etf>, m: Metric)
    ensures Candidates(a + b, m) == Candidates(a, m) + Candidates(b, m)
    decreases |b|
  {
    if |b| == 0 {
      assert a + b == a;
    } else {
      assert (a + b)[..|a + b| - 1] == a + b[..|b| - 1];
      assert (a + b)[|a + b| - 1] == b[|b| - 1];
      CandidatesAppend(a, b[..|b| - 1], m);
    }
  }

  /** One record is a candidate, keyed by its metric, exactly when that metric is positive. */
  lemma {:induction false} CandidatesOfOne(e: Etf, m: Metric)
    ensures Candidates([e], m) == if MetricOf(e, m) > 0.0 then [Keyed(MetricOf(e, m), e)] else []
  {
    assert [e][..0] == [];
  }

  /** The candidates' records are exactly the records with a positive metric, with their multiplicities. */
  lemma {:induction false} CandidatesAreThePositive(etfs: seq<Etf>, m: Metric)
    ensures forall e :: multiset(Items(Candidates(etfs, m)))[e] == if MetricOf(e, m) > 0.0 then multiset(etfs)[e] else 0
  {
    if |etfs| > 0 {
      var init, e := etfs[..|etfs| - 1], etfs[|etfs| - 1];
      CandidatesAreThePositive(init, m);
      assert etfs == init + [e];
      var tail: seq<Keyed<Etf>> := if MetricOf(e, m) > 0.0 then [Keyed(MetricOf(e, m), e)] else [];
      ItemsAppend(Candidates(init, m), tail);
    }
  }

  /** The candidates' records are drawn from the input. */
  lemma {:induction false} CandidatesFromInput(etfs: seq<Etf>, m: Metric)
    ensures multiset(Items(Candidates(etfs, m))) <= multiset(etfs)
  {
    CandidatesAreThePositive(etfs, m);
    var c := multiset(Items(Candidates(etfs, m)));
    forall e
      ensures c[e] <= multiset(etfs)[e]
    {
    }
  }

  /** The ranked records: sorted descending by metric, stably, and cut to the first 20. */
  function Ranked(etfs: seq<Etf>, m: Metric): seq<Keyed<Etf>> {
    var sorted := SortDesc(Candidates(etfs, m));
    sorted[..Min(TopCount, |sorted|)]
  }

  /** `.map(etf => ({ etf: etf.symbol, return: etf.metric }))` over the ranked records. */
  function Ranking(etfs: seq<Etf>, m: Metric): (r: seq<Entry>)
    ensures |r| == |Ranked(etfs, m)|
    ensures forall i :: 0 <= i < |r| ==> r[i] == Entry(Ranked(etfs, m)[i].item.symbol, Ranked(etfs, m)[i].key)
  {
    var top := Ranked(etfs, m);
    seq(|top|, i requires 0 <= i < |top| => Entry(top[i].item.symbol, top[i].key))
  }

  /** A ranking holds min(20, number of records with a positive metric) entries, each pairing a
      record's symbol with its (positive) metric, in non-increasing order. */
  lemma {:induction false} RankingShape(etfs: seq<Etf>, m: Metric)
    ensures var r := Ranking(etfs, m);
      && |r| == Min(TopCount, |Candidates(etfs, m)|)
      && (forall i :: 0 <= i < |r| ==> r[i] == Entry(Ranked(etfs, m)[i].item.symbol, MetricOf(Ranked(etfs, m)[i].item, m)))
      && (forall i :: 0 <= i < |r| ==> r[i].value > 0.0)
      && (forall i, j :: 0 <= i < j < |r| ==> r[i].value >= r[j].value)
  {
    var c := Candidates(etfs, m);
    var top := Ranked(etfs, m);
    forall i | 0 <= i < |top|
      ensures top[i].key == MetricOf(top[i].item, m) && top[i].key > 0.0
    {
      assert top[i] in multiset(c);
    }
  }

  /** Every ranked record is a parsed record, with multiplicity: the ranking is a sub-multiset of the input. */
  lemma {:induction false} RankingFromInput(etfs: seq<Etf>, m: Metric)
    ensures multiset(Items(Ranked(etfs, m))) <= multiset(etfs)
  {
    var c := Candidates(etfs, m);
    var sorted := SortDesc(c);
    var n := Min(TopCount, |sorted|);
    CandidatesFromInput(etfs, m);
    ItemsPermutation(c, sorted);
    PrefixItems(sorted, n);
  }

  /** No record with a positive metric left out of a ranking has a metric above the last entry's:
      the ranking really is the top 20. */
  lemma {:induction false} RankingIsTop(etfs: seq<Etf>, m: Metric)
    ensures var r := Ranking(etfs, m);
      |r| > 0 ==> forall e | e in multiset(Items(Candidates(etfs, m))) - multiset(Items(Ranked(etfs, m))) ::
        MetricOf(e, m) <= r[|r| - 1].value
  {
    var c := Candidates(etfs, m);
    var sorted := SortDesc(c);
    var n := Min(TopCount, |sorted|);
    var r := Ranking(etfs, m);
    assert Ranked(etfs, m) == sorted[..n];
    if n > 0 {
      assert r[n - 1].value == sorted[n - 1].key;
      ItemsPermutation(c, sorted);
      PrefixItems(sorted, n);
      RestBelowCut(c, n, m);
    }
  }

  /** Every record sorted below the cut at `n` has a metric at most the n-th key. */
  lemma {:induction false} RestBelowCut(c: seq<Keyed<Etf>>, n: nat, m: Metric)
    requires forall i :: 0 <= i < |c| ==> c[i].key == MetricOf(c[i].item, m)
    requires 0 < n <= |c|
    ensures forall e | e in multiset(Items(SortDesc(c)[n..])) :: MetricOf(e, m) <= SortDesc(c)[n - 1].key
  {
    forall e | e in multiset(Items(SortDesc(c)[n..]))
      ensures MetricOf(e, m) <= SortDesc(c)[n - 1].key
    {
      RestKeyBound(c, n, e, m);
    }
  }


  /** A record past the cut has a metric no greater than the last kept one. */
  lemma {:induction false} RestKeyBound(c: seq<Keyed<Etf>>, n: nat, e: Etf, m: Metric)
    requires forall i :: 0 <= i < |c| ==> c[i].key == MetricOf(c[i].item, m)
    requires 0 < n <= |c|
    requires e in multiset(Items(SortDesc(c)[n..]))
    ensures MetricOf(e, m) <= SortDesc(c)[n - 1].key
  {
    var sorted := SortDesc(c);
    var rest := sorted[n..];
    var j :| 0 <= j < |rest| && Items(rest)[j] == e;
    assert rest[j] == sorted[n + j];
    assert sorted[n + j] in multiset(c);
    var i :| 0 <= i < |c| && c[i] == sorted[n + j];
  }

  /** Ties keep input order: for every metric value, the ranked records with that value are the first
      of the candidates with that value, in input order. */
  lemma {:induction false} RankingIsStable(etfs: seq<Etf>, m: Metric, k: real)
    ensures Ties(Ranked(etfs, m), k) <= Ties(Candidates(etfs, m), k)
  {
    var c := Candidates(etfs, m);
    var sorted := SortDesc(c);
    var n := Min(TopCount, |sorted|);
    SortKeepsTies(c, k);
    assert sorted == sorted[..n] + sorted[n..];
    TiesAppend(sorted[..n], sorted[n..], k);
  }

  /** The data the `catch` block shows: 20 entries per ranking. */
  function Fallback(): (d: TopPerformersData)
    ensures |d.threeYearData| == 20 && |d.fiveYearData| == 20 && |d.dividendData| == 20
  {
    TopPerformersData(
      [ Entry("ARKK", 18.5), Entry("QQQ", 16.2), Entry("VGT", 15.8), Entry("SOXX", 14.9), Entry("XLK", 14.3),
        Entry("FTEC", 13.7), Entry("VTI", 12.1), Entry("SPY", 11.8), Entry("SCHG", 11.2), Entry("IVV", 10.9),
        Entry("VOO", 10.7), Entry("VUG", 10.5), Entry("VXUS", 10.2), Entry("VEA", 9.8), Entry("VWO", 9.5),
        Entry("BND", 9.2), Entry("AGG", 8.9), Entry("VNQ", 8.6), Entry("GLD", 8.3), Entry("SLV", 8.0) ],
      [ Entry("QQQ", 19.3), Entry("VGT", 18.7), Entry("ARKK", 17.2), Entry("XLK", 16.8), Entry("SOXX", 16.1),
        Entry("FTEC", 15.4), Entry("VTI", 13.2), Entry("SPY", 12.9), Entry("SCHG", 12.5), Entry("IVV", 12.1),
        Entry("VOO", 11.8), Entry("VUG", 11.5), Entry("VXUS", 11.2), Entry("VEA", 10.8), Entry("VWO", 10.5),
        Entry("BND", 10.2), Entry("AGG", 9.9), Entry("VNQ", 9.6), Entry("GLD", 9.3), Entry("SLV", 9.0) ],
      [ Entry("VYM", 3.2), Entry("SCHD", 3.1), Entry("DVY", 2.9), Entry("VIG", 2.7), Entry("DGRO", 2.5),
        Entry("NOBL", 2.3), Entry("HDV", 2.2), Entry("SPHD", 2.1), Entry("VTV", 2.0), Entry("SPYD", 1.9),
        Entry("USMV", 1.8), Entry("QUAL", 1.7), Entry("MTUM", 1.6), Entry("SIZE", 1.5), Entry("VMOT", 1.4),
        Entry("VLUE", 1.3), Entry("FREL", 1.2), Entry("IEFA", 1.1), Entry("IEMG", 1.0), Entry("EFA", 0.9) ])
  }

  /** The whole effect: the fallback data when the fetch fails or the body has no non-blank line
      (`lines[0].split` throws), otherwise the three rankings of the parsed records. */
  function LoadTopPerformers(fetch: Fetch, parse: Parser): (d: TopPerformersData)
    ensures fetch.FetchFailed? ==> d == Fallback()
    ensures fetch.Fetched? && IsBlank(fetch.text) ==> d == Fallback()
    ensures fetch.Fetched? && !IsBlank(fetch.text) ==>
      var etfs := ParseEtfs(DataLines(fetch.text), parse);
      d == TopPerformersData(Ranking(etfs, ThreeYear), Ranking(etfs, FiveYear), Ranking(etfs, Dividend))
  {
    match fetch
    case FetchFailed => Fallback()
    case Fetched(text) =>
      LinesEmptyIffBlank(text);
      if |Lines(text)| == 0 then Fallback()
      else
        var etfs := ParseEtfs(DataLines(text), parse);
        TopPerformersData(Ranking(etfs, ThreeYear), Ranking(etfs, FiveYear), Ranking(etfs, Dividend))
  }
}
