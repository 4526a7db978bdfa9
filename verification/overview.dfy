/** The overview tab (components/overview-tab.tsx): three KPI rows and a trailing P/E list read from
    the overview CSV, dividend yields read from the top-performers CSV, and two histograms. */
module Overview {
  import opened Common
  import opened Text
  import opened Csv
  import opened Histogram

  /** What the tab renders. */
  datatype OverviewData = OverviewData(
    totalAssets: real,
    threeYearReturn: real,
    fiveYearReturn: real,
    dividendYieldData: seq<Bar>,
    trailingPEData: seq<Bar>)

  /** The state the metric-row loop builds up. */
  datatype Metrics = Metrics(totalAssets: real, threeYearReturn: real, fiveYearReturn: real, trailingPE: seq<real>)

  const TotalAssetsDefault: real := 2847500000000.0
  const ThreeYearDefault: real := 8.45
  const FiveYearDefault: real := 10.23

  /** The P/E list used when a distribution row yields no admissible value. */
  const PeFallback: seq<real> := [12.0, 14.0, 18.0, 20.0, 25.0, 22.0, 28.0, 32.0, 37.0, 45.0, 50.0, 60.0]

  /** Before the loop: every KPI 0 and no P/E values. */
  const Initial := Metrics(0.0, 0.0, 0.0, [])

  /** The dividend-yield bins: contiguous over `[0, 10)`. */
  function DividendBins(): (bins: seq<Bin>)
    ensures |bins| == 6 && Contiguous(bins)
    ensures bins[0].min == 0.0 && bins[5].max == 10.0
  {
    [ Bin(0.0, 1.0, "0-1%"), Bin(1.0, 2.0, "1-2%"), Bin(2.0, 3.0, "2-3%"),
      Bin(3.0, 4.0, "3-4%"), Bin(4.0, 5.0, "4-5%"), Bin(5.0, 10.0, "5%+") ]
  }

  /** The trailing P/E bins: contiguous over `[0, 100)` only. */
  function PeBins(): (bins: seq<Bin>)
    ensures |bins| == 7 && Contiguous(bins)
    ensures bins[0].min == 0.0 && bins[6].max == 100.0
  {
    [ Bin(0.0, 10.0, "0-10"), Bin(10.0, 15.0, "10-15"), Bin(15.0, 20.0, "15-20"),
      Bin(20.0, 25.0, "20-25"), Bin(25.0, 30.0, "25-30"), Bin(30.0, 40.0, "30-40"),
      Bin(40.0, 100.0, "40+") ]
  }

  /** The data the `catch` block shows. */
  const Fallback := OverviewData(
    TotalAssetsDefault, ThreeYearDefault, FiveYearDefault,
    [ Bar("0-1%", 45), Bar("1-2%", 78), Bar("2-3%", 65), Bar("3-4%", 32), Bar("4-5%", 18), Bar("5%+", 12) ],
    [ Bar("0-10", 35), Bar("10-15", 85), Bar("15-20", 120), Bar("20-25", 95), Bar("25-30", 65),
      Bar("30-40", 35), Bar("40+", 15) ])

  /** `values[0]?.replace(/"/g, "")`: the metric name of a row; a split line always has a first field. */
  function MetricName(line: string): string {
    RemoveAll(Fields(line)[0], '"')
  }

  /** The rows the loop recognises by their metric name; a row with any other name is skipped. */
  datatype Row = TotalAssetsRow | ThreeYearRow | FiveYearRow | PeRow | OtherRow {

    /** The three rows that set a KPI. */
    predicate IsKpi() {
      TotalAssetsRow? || ThreeYearRow? || FiveYearRow?
    }

    /** The hard default a KPI row falls back to when its value parses to NaN or 0. */
    function Default(): real
      requires IsKpi()
    {
      match this
      case TotalAssetsRow => TotalAssetsDefault
      case ThreeYearRow => ThreeYearDefault
      case FiveYearRow => FiveYearDefault
    }

    /** The KPI of the loop state this row sets. */
    function Of(m: Metrics): real
      requires IsKpi()
    {
      match this
      case TotalAssetsRow => m.totalAssets
      case ThreeYearRow => m.threeYearReturn
      case FiveYearRow => m.fiveYearReturn
    }
  }

  /** The `if (metric === ...)` chain. */
  function Classify(metric: string): (r: Row)
    ensures r == TotalAssetsRow <==> metric == "Total Assets"
    ensures r == ThreeYearRow <==> metric == "Average 3Y Return"
    ensures r == FiveYearRow <==> metric == "Average 5Y Return"
    ensures r == PeRow <==> metric == "Trailing PE Distribution"
  {
    if metric == "Total Assets" then TotalAssetsRow
    else if metric == "Average 3Y Return" then ThreeYearRow
    else if metric == "Average 5Y Return" then FiveYearRow
    else if metric == "Trailing PE Distribution" then PeRow
    else OtherRow
  }

  /** The kind of a data line, by its metric name. */
  function RowOf(line: string): Row {
    Classify(MetricName(line))
  }

  /** Removes a leading `[`. */
  function DropFirst(s: string): (r: string)
    ensures multiset(r) <= multiset(s)
    ensures |s| > 0 && s[0] == '[' ==> r == s[1..]
    ensures !(|s| > 0 && s[0] == '[') ==> r == s
  {
    if |s| > 0 && s[0] == '[' then
      assert s == [s[0]] + s[1..];
      s[1..]
    else s
  }
  /** Removes a trailing `]`. */
  function DropLast(s: string): (r: string)
    ensures multiset(r) <= multiset(s)
    ensures |s| > 0 && s[|s| - 1] == ']' ==> r == s[..|s| - 1]
    ensures !(|s| > 0 && s[|s| - 1] == ']') ==> r == s
  {
    if |s| > 0 && s[|s| - 1] == ']' then
      assert s == s[..|s| - 1] + [s[|s| - 1]];
      s[..|s| - 1]
    else s
  }
  /** `value.replace(/^\[|\]$/g, "")`: one leading `[` and one trailing `]` removed. */
  function StripBrackets(s: string): (r: string)
    ensures multiset(r) <= multiset(s)
    ensures |s| >= 2 && s[0] == '[' && s[|s| - 1] == ']' ==> r == s[1..|s| - 1]
    ensures |s| > 0 && s[0] == '[' && !(|s| >= 2 && s[|s| - 1] == ']') ==> r == s[1..]
    ensures |s| > 0 && s[0] != '[' && s[|s| - 1] == ']' ==> r == s[..|s| - 1]
    ensures (|s| == 0 || (s[0] != '[' && s[|s| - 1] != ']')) ==> r == s
  {
    DropLast(DropFirst(s))
  }

  /** A parsed P/E value passes `v !== null && v > 0 && v < 200`. */
  predicate AdmitPe(x: Option<real>) {
    x.Some? && 0.0 < x.value < 200.0
  }

  /** What one piece contributes: its trimmed and parsed value when that is admissible. */
  function PieceValue(piece: string, parse: Parser): (vs: seq<real>)
    ensures |vs| <= 1 && forall v <- vs :: 0.0 < v < 200.0
  {
    var x := parse(Trim(piece));
    if AdmitPe(x) then [x.value] else []
  }

  /** The admissible P/E values of the pieces, in order, each piece trimmed and parsed. */
  function AdmittedPe(pieces: seq<string>, parse: Parser): (vs: seq<real>)
    ensures |vs| <= |pieces|
    ensures forall v <- vs :: 0.0 < v < 200.0
  {
    if |pieces| == 0 then []
    else PieceValue(pieces[0], parse) + AdmittedPe(pieces[1..], parse)
  }

  /** The pieces are read one at a time: admitting over two lists admits over each, in order. */
  lemma {:induction false} AdmittedPeAppend(a: seq<string>, b: seq<string>, parse: Parser)
    ensures AdmittedPe(a + b, parse) == AdmittedPe(a, parse) + AdmittedPe(b, parse)
  {
    if |a| == 0 {
      assert a + b == b;
    } else {
      assert (a + b)[0] == a[0] && (a + b)[1..] == a[1..] + b;
      AdmittedPeAppend(a[1..], b, parse);
    }
  }

  /** One piece is kept, as its trimmed and parsed value, exactly when that value is admissible. */
  lemma {:induction false} AdmittedPeOfOne(p: string, parse: Parser)
    ensures var x := parse(Trim(p));
      AdmittedPe([p], parse) == if AdmitPe(x) then [x.value] else []
  {
    assert [p][1..] == [];
  }

  /** The P/E list a distribution row's value sets: the admissible values of its comma-separated list,
      or the fallback list when none is admissible. */
  function PeValues(value: string, parse: Parser): (pe: seq<real>)
    ensures pe == PeFallback || (|pe| > 0 && forall v <- pe :: 0.0 < v < 200.0)
    ensures var admitted := AdmittedPe(Split(StripBrackets(value), ','), parse);
      && (admitted != [] ==> pe == admitted)
      && (admitted == [] ==> pe == PeFallback)
  {
    var admitted := AdmittedPe(Split(StripBrackets(value), ','), parse);
    if |admitted| > 0 then admitted else PeFallback
  }

  /** The KPI a row sets from its value field: `Number.parseFloat(value) || default`, where an absent
      field parses to NaN. */
  function Kpi(value: Option<string>, default: real, parse: Parser): (k: real)
    ensures value.Some? && parse(value.value).Some? && parse(value.value).value != 0.0 ==>
      k == parse(value.value).value
    ensures value.None? || parse(value.value).None? || parse(value.value) == Some(0.0) ==> k == default
  {
    OrDefault(match value case None => None case Some(s) => parse(s), default)
  }

  /** One pass of the metric-row loop; `None` when `value.replace` throws on a distribution row
      that has no second field. */
  function ReadRow(m: Metrics, line: string, parse: Parser): Option<Metrics> {
    var value := Field(Fields(line), 1);
    match RowOf(line)
    case TotalAssetsRow => Some(m.(totalAssets := Kpi(value, TotalAssetsDefault, parse)))
    case ThreeYearRow => Some(m.(threeYearReturn := Kpi(value, ThreeYearDefault, parse)))
    case FiveYearRow => Some(m.(fiveYearReturn := Kpi(value, FiveYearDefault, parse)))
    case PeRow => if value.None? then None else Some(m.(trailingPE := PeValues(value.value, parse)))
    case OtherRow => Some(m)
  }

  /** The metric-row loop over the data lines, in order; `None` once a row throws. */
  function ReadRows(m: Metrics, lines: seq<string>, parse: Parser): Option<Metrics> {
    if |lines| == 0 then Some(m)
    else
      match ReadRows(m, lines[..|lines| - 1], parse)
      case None => None
      case Some(m') => ReadRow(m', lines[|lines| - 1], parse)
  }

  /** The value field of the LAST row of kind `r`, scanning from the end: `None` when there is no
      such row, `Some(None)` when that row has no second field. */
  function LastValue(lines: seq<string>, r: Row): Option<Option<string>> {
    if |lines| == 0 then None
    else if RowOf(lines[|lines| - 1]) == r then Some(Field(Fields(lines[|lines| - 1]), 1))
    else LastValue(lines[..|lines| - 1], r)
  }

  /** The loop throws exactly when some distribution row has no second field. */
  predicate Throws(lines: seq<string>) {
    exists i :: 0 <= i < |lines| && ThrowingRow(lines[i])
  }

  /** A distribution row without a second field: `value` is undefined and `value.replace` throws. */
  predicate ThrowingRow(line: string) {
    RowOf(line) == PeRow && |Fields(line)| < 2
  }

  /** What one row does to the loop state. */
  lemma {:induction false} ReadRowEffect(m: Metrics, line: string, parse: Parser)
    ensures ReadRow(m, line, parse).None? <==> ThrowingRow(line)
    ensures ReadRow(m, line, parse).Some? ==>
      && (forall k: Row | k.IsKpi() :: k.Of(ReadRow(m, line, parse).value) ==
            if RowOf(line) == k then Kpi(Field(Fields(line), 1), k.Default(), parse) else k.Of(m))
      && ReadRow(m, line, parse).value.trailingPE ==
            if RowOf(line) == PeRow then PeValues(Field(Fields(line), 1).value, parse) else m.trailingPE
  {
  }

  /** A line list throws when its initial part does or its last line does. */
  lemma {:induction false} ThrowsSnoc(lines: seq<string>)
    requires |lines| > 0
    ensures Throws(lines) <==> Throws(lines[..|lines| - 1]) || ThrowingRow(lines[|lines| - 1])
  {
    var init := lines[..|lines| - 1];
    assert forall i :: 0 <= i < |init| ==> init[i] == lines[i];
    if Throws(lines) && !ThrowingRow(lines[|lines| - 1]) {
      var i :| 0 <= i < |lines| && ThrowingRow(lines[i]);
      assert i < |init|;
      assert ThrowingRow(init[i]);
    }
  }

  /** The metric-row loop fails exactly when some distribution row has no value. */
  lemma {:induction false} ReadRowsThrows(m: Metrics, lines: seq<string>, parse: Parser)
    ensures ReadRows(m, lines, parse).None? <==> Throws(lines)
  {
    if |lines| > 0 {
      var init, last := lines[..|lines| - 1], lines[|lines| - 1];
      ReadRowsThrows(m, init, parse);
      ThrowsSnoc(lines);
      match ReadRows(m, init, parse)
      case None =>
      case Some(m') =>
        assert ReadRows(m, lines, parse) == ReadRow(m', last, parse);
        ReadRowEffect(m', last, parse);
    }
  }

  /** Each KPI is set by the last row of its name, and keeps its initial value when there is none. */
  lemma {:induction false} ReadRowsKpi(m: Metrics, lines: seq<string>, parse: Parser, k: Row)
    requires k.IsKpi() && ReadRows(m, lines, parse).Some?
    ensures k.Of(ReadRows(m, lines, parse).value) ==
      match LastValue(lines, k) case None => k.Of(m) case Some(v) => Kpi(v, k.Default(), parse)
  {
    if |lines| > 0 {
      var init, last := lines[..|lines| - 1], lines[|lines| - 1];
      ReadRowsKpi(m, init, parse, k);
      ReadRowEffect(ReadRows(m, init, parse).value, last, parse);
    }
  }

  /** The P/E list is set by the last distribution row, and keeps its initial value when there is none. */
  lemma {:induction false} ReadRowsPe(m: Metrics, lines: seq<string>, parse: Parser)
    requires ReadRows(m, lines, parse).Some?
    ensures ReadRows(m, lines, parse).value.trailingPE ==
      match LastValue(lines, PeRow) case Some(Some(v)) => PeValues(v, parse) case _ => m.trailingPE
  {
    if |lines| > 0 {
      var init, last := lines[..|lines| - 1], lines[|lines| - 1];
      ReadRowsPe(m, init, parse);
      ReadRowEffect(ReadRows(m, init, parse).value, last, parse);
    }
  }

  /** A KPI as the last row of its kind sets it: 0 when there is no such row. */
  function LastKpi(lines: seq<string>, k: Row, parse: Parser): real
    requires k.IsKpi()
  {
    match LastValue(lines, k)
    case None => 0.0
    case Some(v) => Kpi(v, k.Default(), parse)
  }

  /** The P/E list as the last distribution row sets it: empty when there is no such row. */
  function LastPe(lines: seq<string>, parse: Parser): seq<real> {
    match LastValue(lines, PeRow)
    case Some(Some(v)) => PeValues(v, parse)
    case _ => []
  }

  /** The metric-row loop from the initial state: it fails exactly on a distribution row without a
      value; otherwise each KPI is set by the last row of its name (0 when there is none) and the P/E
      list by the last distribution row (empty when there is none). */
  lemma {:induction false} ReadRowsSpec(lines: seq<string>, parse: Parser)
    ensures ReadRows(Initial, lines, parse).None? <==> Throws(lines)
    ensures ReadRows(Initial, lines, parse).Some? ==>
      var m := ReadRows(Initial, lines, parse).value;
      && m.totalAssets == LastKpi(lines, TotalAssetsRow, parse)
      && m.threeYearReturn == LastKpi(lines, ThreeYearRow, parse)
      && m.fiveYearReturn == LastKpi(lines, FiveYearRow, parse)
      && m.trailingPE == LastPe(lines, parse)
  {
    ReadRowsThrows(Initial, lines, parse);
    if ReadRows(Initial, lines, parse).Some? {
      ReadRowsKpi(Initial, lines, parse, TotalAssetsRow);
      ReadRowsKpi(Initial, lines, parse, ThreeYearRow);
      ReadRowsKpi(Initial, lines, parse, FiveYearRow);
      ReadRowsPe(Initial, lines, parse);
    }
  }

  /** The second field of a split line holds no comma. */
  lemma {:induction false} ValueHasNoComma(line: string)
    requires |Fields(line)| >= 2
    ensures ',' !in Field(Fields(line), 1).value
  {
    var raw := Fields(line)[1];
    SplitSpec(line, ',');
    assert raw in Split(line, ',');
    assert multiset(raw)[','] == 0;
    RemoveAllSpec(raw, '"');
    assert Field(Fields(line), 1).value == RemoveAll(raw, '"');
    assert multiset(RemoveAll(raw, '"'))[','] == 0;
  }

  /** The quirk of the distribution row: its value is the second comma-separated field of the line, so
      the bracketed list has already been cut at its first comma and at most one value reaches the
      filter; otherwise the fallback list is used. */
  lemma {:induction false} PeRowKeepsAtMostOne(line: string, parse: Parser)
    requires RowOf(line) == PeRow && |Fields(line)| >= 2
    ensures var pe := ReadRow(Initial, line, parse).value.trailingPE; |pe| <= 1 || pe == PeFallback
  {
    var value := Field(Fields(line), 1).value;
    ValueHasNoComma(line);
    var clean := StripBrackets(value);
    assert multiset(clean)[','] == 0;
    SplitNoSeparator(clean, ',');
    ReadRowEffect(Initial, line, parse);
  }

  /** `dividendYield = Number.parseFloat(values[4]?.replace(/"/g, ""))`, kept when not NaN and positive. */
  function DividendYields(lines: seq<string>, parse: Parser): (ys: seq<real>)
    ensures |ys| <= |lines|
    ensures forall y <- ys :: y > 0.0
  {
    if |lines| == 0 then []
    else
      var x := NumberField(Fields(lines[|lines| - 1]), 4, parse);
      DividendYields(lines[..|lines| - 1], parse) + (if x.Some? && x.value > 0.0 then [x.value] else [])
  }

  /** The lines are read one at a time: the yields of two runs of lines are those of each, in order. */
  lemma {:induction false} DividendYieldsAppend(a: seq<string>, b: seq<string>, parse: Parser)
    ensures DividendYields(a + b, parse) == DividendYields(a, parse) + DividendYields(b, parse)
    decreases |b|
  {
    if |b| == 0 {
      assert a + b == a;
    } else {
      assert (a + b)[..|a + b| - 1] == a + b[..|b| - 1];
      assert (a + b)[|a + b| - 1] == b[|b| - 1];
      DividendYieldsAppend(a, b[..|b| - 1], parse);
    }
  }

  /** One line contributes its fifth field, parsed after quote stripping, exactly when it is a
      positive number. */
  lemma {:induction false} DividendYieldsOfOne(l: string, parse: Parser)
    ensures var x := NumberField(Fields(l), 4, parse);
      DividendYields([l], parse) == if x.Some? && x.value > 0.0 then [x.value] else []
  {
    assert [l][..0] == [];
  }

  /** The whole effect: both fetches, the two loops and the histograms, or the fallback data when a
      fetch fails or a row throws. */
  function LoadOverview(overview: Fetch, topPerformers: Fetch, parse: Parser): (d: OverviewData)
    ensures overview.FetchFailed? || topPerformers.FetchFailed? ==> d == Fallback
    ensures overview.Fetched? && Throws(DataLines(overview.text)) ==> d == Fallback
    ensures |d.dividendYieldData| == 6 && |d.trailingPEData| == 7
  {
    if overview.FetchFailed? || topPerformers.FetchFailed? then Fallback
    else
      ReadRowsThrows(Initial, DataLines(overview.text), parse);
      match ReadRows(Initial, DataLines(overview.text), parse)
      case None => Fallback
      case Some(m) =>
        var dividends := DividendYields(DataLines(topPerformers.text), parse);
        OverviewData(m.totalAssets, m.threeYearReturn, m.fiveYearReturn,
                     CreateHistogram(dividends, DividendBins()), CreateHistogram(m.trailingPE, PeBins()))
  }

  /** When both fetches succeed and no row throws: each KPI comes from the last row of its name (0
      when absent), the bars carry the bins' labels in bin order, every dividend yield below 10 is
      counted in exactly one bar and larger ones in none, and the P/E bars count only the P/E values
      below 100. */
  lemma {:induction false} LoadOverviewSpec(overview: string, topPerformers: string, parse: Parser)
    requires !Throws(DataLines(overview))
    ensures var d := LoadOverview(Fetched(overview), Fetched(topPerformers), parse);
      var lines := DataLines(overview);
      && d.totalAssets == LastKpi(lines, TotalAssetsRow, parse)
      && d.threeYearReturn == LastKpi(lines, ThreeYearRow, parse)
      && d.fiveYearReturn == LastKpi(lines, FiveYearRow, parse)
      && (forall i :: 0 <= i < 6 ==> d.dividendYieldData[i].range == DividendBins()[i].caption)
      && (forall i :: 0 <= i < 7 ==> d.trailingPEData[i].range == PeBins()[i].caption)
      && Total(d.dividendYieldData) == CountIn(DividendYields(DataLines(topPerformers), parse), 0.0, 10.0)
      && Total(d.trailingPEData) == CountIn(LastPe(lines, parse), 0.0, 100.0)
      && d.dividendYieldData == CreateHistogram(DividendYields(DataLines(topPerformers), parse), DividendBins())
      && d.trailingPEData == CreateHistogram(LastPe(lines, parse), PeBins())
  {
    var lines := DataLines(overview);
    ReadRowsSpec(lines, parse);
    ContiguousTotal(DividendYields(DataLines(topPerformers), parse), DividendBins());
    ContiguousTotal(LastPe(lines, parse), PeBins());
  }

  /** The P/E bars count only values below 100, although the filter admits values up to 200. */
  lemma {:induction false} PeBarsCountValuesBelowHundred(pe: seq<real>)
    ensures Total(CreateHistogram(pe, PeBins())) == CountIn(pe, 0.0, 100.0)
  {
    ContiguousTotal(pe, PeBins());
  }

  /** A P/E value in `[100, 200)` survives the filter yet falls into no bin. */
  lemma {:induction false} PeBetweenHundredAndTwoHundredIsLost(v: real)
    requires 100.0 <= v < 200.0
    ensures AdmitPe(Some(v))
    ensures forall i :: 0 <= i < 7 ==> !InBin(v, PeBins()[i])
    ensures Total(CreateHistogram([v], PeBins())) == 0
  {
    ExactlyOneBin(PeBins(), v);
    PeBarsCountValuesBelowHundred([v]);
    assert [v][..0] == [];
  }

  /** A blank overview body does not throw (the loop never reads the header line): the KPIs stay 0 and
      every P/E bar counts nothing, instead of the fallback data. */
  lemma {:induction false} BlankOverviewShowsZeros(overview: string, topPerformers: string, parse: Parser)
    requires IsBlank(overview)
    ensures var d := LoadOverview(Fetched(overview), Fetched(topPerformers), parse);
      && d.totalAssets == 0.0 && d.threeYearReturn == 0.0 && d.fiveYearReturn == 0.0
      && Total(d.trailingPEData) == 0
      && d != Fallback
  {
    LinesEmptyIffBlank(overview);
    assert DataLines(overview) == [];
    assert !Throws([]);
    ReadRowsSpec([], parse);
    PeBarsCountValuesBelowHundred([]);
  }
}
