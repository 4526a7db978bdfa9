/** The category-performance tab (components/category-performance-tab.tsx): one record per data line
    with a category name, the records ordered three ways (by 3-year return, by 5-year return, by total
    assets; each descending and stable), the best category per return, and the top ten by 3-year return. */
module CategoryPerformance {
  import opened Common
  import opened Text
  import opened Csv
  import opened Sorting

  /** A parsed line. Returns are percentages. */
  datatype Category = Category(category: string, threeYearReturn: real, fiveYearReturn: real, totalAssets: real)

  /** `{ name, return }`: the headline card of a return. */
  datatype Best = Best(name: string, value: real)

  /** `{ category, return }` or `{ category, assets }`: one bar of a chart. */
  datatype Point = Point(category: string, value: real)

  /** `{ category, return3Y, return5Y }`: one group of the combined chart. */
  datatype Combined = Combined(category: string, return3Y: real, return5Y: real)

  /** What the tab renders. */
  datatype CategoryData = CategoryData(
    totalCategories: nat,
    bestCategory3Y: Best,
    bestCategory5Y: Best,
    category3YData: seq<Point>,
    category5YData: seq<Point>,
    categoryAssetsData: seq<Point>,
    combinedTopData: seq<Combined>)

  /** The three orderings. */
  datatype Order = ByThreeYear | ByFiveYear | ByAssets

  /** The name a best card falls back to. */
  const BestNameDefault: string := "Technology"
  const BestThreeYearDefault: real := 16.8
  const BestFiveYearDefault: real := 18.2

  /** How many categories the combined chart keeps: `.slice(0, 10)`. */
  const CombinedCount: nat := 10

  /** The value an ordering sorts by. */
  function KeyOf(c: Category, o: Order): real {
    match o
    case ByThreeYear => c.threeYearReturn
    case ByFiveYear => c.fiveYearReturn
    case ByAssets => c.totalAssets
  }

  /** The record of one data line. Both returns are `parseFloat(values[i]?.replace(/"/g, "")) * 100 || 0`;
      the assets are `parseFloat(values[3]) || 0`, read without removing quotes. A line yields a record
      exactly when its category name is non-empty. */
  function ParseCategory(line: string, parse: Parser): (r: Option<Category>)
    ensures r.Some? <==> RemoveAll(Fields(line)[0], '"') != []
    ensures r.Some? ==> r.value.category == RemoveAll(Fields(line)[0], '"')
    ensures r.Some? ==> match NumberField(Fields(line), 1, parse)
      case Some(x) => r.value.threeYearReturn == 100.0 * x
      case None => r.value.threeYearReturn == 0.0
    ensures r.Some? ==> match NumberField(Fields(line), 2, parse)
      case Some(x) => r.value.fiveYearReturn == 100.0 * x
      case None => r.value.fiveYearReturn == 0.0
    ensures r.Some? ==> match RawNumberField(Fields(line), 3, parse)
      case Some(x) => r.value.totalAssets == x
      case None => r.value.totalAssets == 0.0
  {
    var values := Fields(line);
    var name := RemoveAll(values[0], '"');
    if name == [] then None
    else Some(Category(name,
                       Percent(NumberField(values, 1, parse)),
                       Percent(NumberField(values, 2, parse)),
                       OrDefault(RawNumberField(values, 3, parse), 0.0)))
  }

  /** The records of the data lines, in line order. */
  function ParseCategories(lines: seq<string>, parse: Parser): (cats: seq<Category>)
    ensures |cats| <= |lines|
    ensures forall c <- cats :: c.category != []
  {
    if |lines| == 0 then []
    else
      var init := ParseCategories(lines[..|lines| - 1], parse);
      match ParseCategory(lines[|lines| - 1], parse)
      case Some(c) => init + [c]
      case None => init
  }

  /** The records are read one line at a time: the records of two runs of lines are those of each, in order. */
  lemma {:induction false} ParseCategoriesAppend(a: seq<string>, b: seq<string>, parse: Parser)
    ensures ParseCategories(a + b, parse) == ParseCategories(a, parse) + ParseCategories(b, parse)
    decreases |b|
  {
    if |b| == 0 {
      assert a + b == a;
    } else {
      assert (a + b)[..|a + b| - 1] == a + b[..|b| - 1];
      assert (a + b)[|a + b| - 1] == b[|b| - 1];
      ParseCategoriesAppend(a, b[..|b| - 1], parse);
    }
  }

  /** One line gives its record when it has one, and nothing otherwise. */
  lemma {:induction false} ParseCategoriesOfOne(l: string, parse: Parser)
    ensures ParseCategories([l], parse) ==
      if ParseCategory(l, parse).Some? then [ParseCategory(l, parse).value] else []
  {
    assert [l][..0] == [];
  }

  /** A parser that, like `Number.parseFloat`, reads no number from text starting with a double quote. */
  ghost predicate RejectsQuoted(parse: Parser) {
    forall s: string :: |s| > 0 && s[0] == '"' ==> parse(s) == None
  }

  /** The assets field is the one field read with its quotes: a quoted amount counts as 0. */
  lemma {:induction false} QuotedAssetsReadAsZero(line: string, parse: Parser)
    requires RejectsQuoted(parse)
    requires |Fields(line)| > 3 && |Fields(line)[3]| > 0 && Fields(line)[3][0] == '"'
    requires ParseCategory(line, parse).Some?
    ensures ParseCategory(line, parse).value.totalAssets == 0.0
  {
    assert parse(Fields(line)[3]) == None;
  }

  /** The records paired with the value an ordering sorts by, in input order. */
  function KeyedBy(cats: seq<Category>, o: Order): (s: seq<Keyed<Category>>)
    ensures |s| == |cats|
    ensures Items(s) == cats
    ensures forall i :: 0 <= i < |s| ==> s[i] == Keyed(KeyOf(cats[i], o), cats[i])
  {
    seq(|cats|, i requires 0 <= i < |cats| => Keyed(KeyOf(cats[i], o), cats[i]))
  }

  /** `[...categories].sort((a, b) => b.key - a.key)`. */
  function SortedBy(cats: seq<Category>, o: Order): seq<Category> {
    Items(SortDesc(KeyedBy(cats, o)))
  }

  /** Sorting rearranges the records and nothing else, and puts them in non-increasing order. */
  lemma {:induction false} SortedByIsOrderedPermutation(cats: seq<Category>, o: Order)
    ensures var r := SortedBy(cats, o);
      && |r| == |cats|
      && multiset(r) == multiset(cats)
      && (forall i, j :: 0 <= i < j < |r| ==> KeyOf(r[i], o) >= KeyOf(r[j], o))
  {
    var keyed := KeyedBy(cats, o);
    var sorted := SortDesc(keyed);
    ItemsPermutation(keyed, sorted);
    forall i | 0 <= i < |sorted|
      ensures sorted[i].key == KeyOf(sorted[i].item, o)
    {
      assert sorted[i] in multiset(keyed);
    }
  }

  /** The sort is stable: records with equal values keep their input order. */
  lemma {:induction false} SortedByIsStable(cats: seq<Category>, o: Order, k: real)
    ensures Ties(SortDesc(KeyedBy(cats, o)), k) == Ties(KeyedBy(cats, o), k)
  {
    SortKeepsTies(KeyedBy(cats, o), k);
  }

  /** A chart's bars: each record's name and the value of `o`. */
  function Points(cats: seq<Category>, o: Order): (ps: seq<Point>)
    ensures |ps| == |cats|
    ensures forall i :: 0 <= i < |cats| ==> ps[i] == Point(cats[i].category, KeyOf(cats[i], o))
  {
    seq(|cats|, i requires 0 <= i < |cats| => Point(cats[i].category, KeyOf(cats[i], o)))
  }

  /** `{ name: sorted[0]?.category || "Technology", return: sorted[0]?.metric || d }`. */
  function BestOf(sorted: seq<Category>, o: Order, d: real): (b: Best)
    ensures |sorted| == 0 ==> b == Best(BestNameDefault, d)
  {
    if |sorted| == 0 then Best(BestNameDefault, d)
    else
      var first := sorted[0];
      Best(if first.category != [] then first.category else BestNameDefault,
           if KeyOf(first, o) != 0.0 then KeyOf(first, o) else d)
  }

  /** With at least one record, the best card is the FIRST record, in input order, whose value is at
      least every other record's: its name (or the default name when it has none), and its value
      unless that is 0, which gives way to the default. */
  lemma {:induction false} BestIsMaximal(cats: seq<Category>, o: Order, d: real)
    requires |cats| > 0
    ensures var b := BestOf(SortedBy(cats, o), o, d);
      exists i :: 0 <= i < |cats|
        && b.name == (if cats[i].category != [] then cats[i].category else BestNameDefault)
        && (forall e <- cats :: KeyOf(e, o) <= KeyOf(cats[i], o))
        && (forall j :: 0 <= j < i ==> KeyOf(cats[j], o) < KeyOf(cats[i], o))
        && b.value == (if KeyOf(cats[i], o) != 0.0 then KeyOf(cats[i], o) else d)
  {
    HeadIsMaximal(cats, o);
    HeadIsFirstMaximal(cats, o);
  }

  /** The head of the sorted list has a value at least every record's. */
  lemma {:induction false} HeadIsMaximal(cats: seq<Category>, o: Order)
    requires |cats| > 0
    ensures forall e <- cats :: KeyOf(e, o) <= KeyOf(SortedBy(cats, o)[0], o)
  {
    var r := SortedBy(cats, o);
    SortedByIsOrderedPermutation(cats, o);
    forall e <- cats
      ensures KeyOf(e, o) <= KeyOf(r[0], o)
    {
      assert e in multiset(r);
      var j :| 0 <= j < |r| && r[j] == e;
      if j > 0 {
        assert KeyOf(r[0], o) >= KeyOf(r[j], o);
      }
    }
  }

  /** The head of the sorted list is the first record, in input order, with the largest value. */
  lemma {:induction false} HeadIsFirstMaximal(cats: seq<Category>, o: Order)
    requires |cats| > 0
    ensures exists i ::
      && 0 <= i < |cats| && cats[i] == SortedBy(cats, o)[0]
      && (forall j :: 0 <= j < i ==> KeyOf(cats[j], o) < KeyOf(cats[i], o))
  {
    var keyed := KeyedBy(cats, o);
    var sorted := SortDesc(keyed);
    var k := sorted[0].key;
    HeadIsMaximal(cats, o);
    FirstOfSortedIsFirstTie(keyed, k);
    FirstTie(keyed, k);
    var i :| 0 <= i < |keyed| && keyed[i] == sorted[0] && keyed[i].key == k
      && forall j :: 0 <= j < i ==> keyed[j].key != k;
    forall j | 0 <= j < i
      ensures KeyOf(cats[j], o) < KeyOf(cats[i], o)
    {
      assert keyed[j].key != k && cats[j] in cats;
    }
  }

  /** The first record of the sorted list is the first tie, in input order, of its own key. */
  lemma {:induction false} FirstOfSortedIsFirstTie(keyed: seq<Keyed<Category>>, k: real)
    requires |keyed| > 0 && SortDesc(keyed)[0].key == k
    ensures Ties(keyed, k) != [] && Ties(keyed, k)[0] == SortDesc(keyed)[0]
  {
    var sorted := SortDesc(keyed);
    SortKeepsTies(keyed, k);
    TiesCons(sorted[0], sorted[1..], k);
    assert [sorted[0]] + sorted[1..] == sorted;
  }

  /** The combined chart: the first ten records by 3-year return, with both returns. */
  function CombinedTop(sorted: seq<Category>): (top: seq<Combined>)
    ensures |top| == Min(CombinedCount, |sorted|)
  {
    var n := Min(CombinedCount, |sorted|);
    seq(n, i requires 0 <= i < n => Combined(sorted[i].category, sorted[i].threeYearReturn, sorted[i].fiveYearReturn))
  }

  /** The combined chart follows the 3-year chart bar for bar over its first ten bars, adding each
      record's 5-year return. */
  lemma {:induction false} CombinedTopFollowsThreeYear(cats: seq<Category>)
    ensures var top := CombinedTop(SortedBy(cats, ByThreeYear));
      var bars := Points(SortedBy(cats, ByThreeYear), ByThreeYear);
      && |top| == Min(CombinedCount, |cats|)
      && forall i :: 0 <= i < |top| ==>
        && top[i].category == bars[i].category
        && top[i].return3Y == bars[i].value
        && top[i].return5Y == SortedBy(cats, ByThreeYear)[i].fiveYearReturn
  {
    SortedByIsOrderedPermutation(cats, ByThreeYear);
  }

  /** The data the `catch` block shows. */
  function Fallback(): (d: CategoryData)
    ensures |d.category3YData| == 10 && |d.category5YData| == 10
    ensures |d.categoryAssetsData| == 10 && |d.combinedTopData| == 10
  {
    var names := ["Technology", "Healthcare", "Consumer Disc.", "Financials", "Industrials",
                  "Communication", "Materials", "Energy", "Utilities", "Real Estate"];
    var r3 := [16.8, 12.4, 11.9, 10.7, 9.8, 8.9, 7.6, 6.2, 5.8, 4.9];
    var r5 := [18.2, 14.1, 13.6, 12.3, 11.4, 10.2, 8.9, 7.8, 6.5, 5.7];
    CategoryData(
      12,
      Best(BestNameDefault, BestThreeYearDefault),
      Best(BestNameDefault, BestFiveYearDefault),
      seq(10, i requires 0 <= i < 10 => Point(names[i], r3[i])),
      seq(10, i requires 0 <= i < 10 => Point(names[i], r5[i])),
      [ Point("Technology", 850000000000.0), Point("Broad Market", 720000000000.0), Point("Bonds", 680000000000.0),
        Point("Healthcare", 340000000000.0), Point("Financials", 280000000000.0),
        Point("Consumer Disc.", 220000000000.0), Point("Industrials", 180000000000.0),
        Point("Communication", 160000000000.0), Point("Energy", 140000000000.0), Point("Materials", 120000000000.0) ],
      seq(10, i requires 0 <= i < 10 => Combined(names[i], r3[i], r5[i])))
  }

  /** The fallback claims 12 categories while each of its lists holds 10. */
  lemma {:induction false} FallbackCountDisagrees()
    ensures Fallback().totalCategories != |Fallback().category3YData|
  {
  }

  /** The tab's data for the records of a successful read. */
  function Build(cats: seq<Category>): (d: CategoryData)
    ensures d.totalCategories == |cats|
    ensures |d.category3YData| == |d.category5YData| == |d.categoryAssetsData| == |cats|
    ensures d.category3YData == Points(SortedBy(cats, ByThreeYear), ByThreeYear)
    ensures d.category5YData == Points(SortedBy(cats, ByFiveYear), ByFiveYear)
    ensures d.categoryAssetsData == Points(SortedBy(cats, ByAssets), ByAssets)
    ensures d.combinedTopData == CombinedTop(SortedBy(cats, ByThreeYear))
    ensures d.bestCategory3Y == BestOf(SortedBy(cats, ByThreeYear), ByThreeYear, BestThreeYearDefault)
    ensures d.bestCategory5Y == BestOf(SortedBy(cats, ByFiveYear), ByFiveYear, BestFiveYearDefault)
  {
    var by3 := SortedBy(cats, ByThreeYear);
    var by5 := SortedBy(cats, ByFiveYear);
    var byAssets := SortedBy(cats, ByAssets);
    CategoryData(
      |cats|,
      BestOf(by3, ByThreeYear, BestThreeYearDefault),
      BestOf(by5, ByFiveYear, BestFiveYearDefault),
      Points(by3, ByThreeYear),
      Points(by5, ByFiveYear),
      Points(byAssets, ByAssets),
      CombinedTop(by3))
  }

  /** The whole effect: the fallback data when the fetch fails or the body has no non-blank line
      (`lines[0].split` throws), otherwise the data built from the parsed records. */
  function LoadCategories(fetch: Fetch, parse: Parser): (d: CategoryData)
    ensures fetch.FetchFailed? ==> d == Fallback()
    ensures fetch.Fetched? && IsBlank(fetch.text) ==> d == Fallback()
    ensures fetch.Fetched? && !IsBlank(fetch.text) ==> d == Build(ParseCategories(DataLines(fetch.text), parse))
  {
    match fetch
    case FetchFailed => Fallback()
    case Fetched(text) =>
      LinesEmptyIffBlank(text);
      if |Lines(text)| == 0 then Fallback()
      else Build(ParseCategories(DataLines(text), parse))
  }
}
