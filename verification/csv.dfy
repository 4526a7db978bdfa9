/** The naive CSV reading shared by the overview, top-performers and category tabs:
    split into non-blank lines, split each line on every comma, strip every double quote,
    and read fields by position. Quoting is not honoured (this is not RFC 4180). */
module Csv {
  import opened Common
  import opened Text

  /** `Number.parseFloat`, left abstract: `None` stands for NaN. */
  type Parser = string -> Option<real>

  /** What `await (await fetch(url)).text()` produced: the body, or a rejection that lands in the tab's `catch`. */
  datatype Fetch = Fetched(text: string) | FetchFailed

  /** Keeps the lines `filter(line => line.trim())` keeps. */
  predicate Kept(line: string) {
    Trim(line) != []
  }

  /** `text.split("\n").filter(line => line.trim())`: the non-blank lines, in order. */
  function Lines(text: string): (lines: seq<string>)
    ensures forall l <- lines :: !IsBlank(l)
    ensures forall l | !IsBlank(l) :: multiset(lines)[l] == multiset(Split(text, '\n'))[l]
  {
    var parts := Split(text, '\n');
    var lines := Filter(parts, Kept);
    assert forall l <- lines :: Kept(l);
    lines
  }

  /** Lines are read one at a time: the lines of two texts joined by a newline are the lines of each,
      in order. */
  lemma {:induction false} LinesAppend(a: string, b: string)
    ensures Lines(a + "\n" + b) == Lines(a) + Lines(b)
  {
    SplitAppend(a, b, '\n');
    FilterAppend(Split(a, '\n'), Split(b, '\n'), Kept);
  }

  /** A text without a newline is one line, kept exactly when it is not blank. */
  lemma {:induction false} LinesOfOneLine(l: string)
    requires '\n' !in l
    ensures Lines(l) == if IsBlank(l) then [] else [l]
  {
    SplitNoSeparator(l, '\n');
  }

  /** A text has no line at all exactly when it is blank: then `lines[0]` is undefined. */
  lemma {:induction false} LinesEmptyIffBlank(text: string)
    ensures Lines(text) == [] <==> IsBlank(text)
  {
    var parts := Split(text, '\n');
    JoinSplit(text, '\n');
    if IsBlank(text) {
      forall p <- parts
        ensures !Kept(p)
      {
        forall i | 0 <= i < |p|
          ensures IsSpace(p[i])
        {
          JoinHasPieces(parts, p, i, '\n');
        }
      }
    } else {
      var k :| 0 <= k < |text| && !IsSpace(text[k]);
      var p :| p in parts && text[k] in p by {
        JoinChars(parts, '\n', k);
      }
      var j :| 0 <= j < |p| && p[j] == text[k];
      assert !IsBlank(p);
      assert multiset(Lines(text))[p] == multiset(parts)[p] > 0;
    }
  }

  /** Every character of a piece occurs in the joined text. */
  lemma {:induction false} JoinHasPieces(parts: seq<string>, p: string, i: nat, sep: char)
    requires p in parts && i < |p|
    ensures p[i] in Join(parts, sep)
  {
    if |parts| > 1 && parts[0] != p {
      JoinHasPieces(parts[1..], p, i, sep);
      assert Join(parts, sep) == parts[0] + [sep] + Join(parts[1..], sep);
    } else if |parts| > 1 {
      assert Join(parts, sep) == parts[0] + ([sep] + Join(parts[1..], sep));
    }
  }

  /** Every character of a joined text is the separator or comes from one of the pieces. */
  lemma {:induction false} JoinChars(parts: seq<string>, sep: char, k: nat)
    requires k < |Join(parts, sep)|
    ensures Join(parts, sep)[k] == sep || exists p <- parts :: Join(parts, sep)[k] in p
  {
    if |parts| == 1 {
      assert Join(parts, sep)[k] in parts[0];
    } else if |parts| > 1 {
      var rest := Join(parts[1..], sep);
      assert Join(parts, sep) == parts[0] + [sep] + rest;
      if k < |parts[0]| {
        assert Join(parts, sep)[k] in parts[0];
      } else if k > |parts[0]| {
        JoinChars(parts[1..], sep, k - |parts[0]| - 1);
        assert Join(parts, sep)[k] == rest[k - |parts[0]| - 1];
      }
    }
  }

  /** `lines[1]`, `lines[2]`, ...: the lines the loops `for (let i = 1; i < lines.length; i++)` visit. */
  function DataLines(text: string): (rows: seq<string>)
    ensures forall r <- rows :: !IsBlank(r)
    ensures |rows| == if Lines(text) == [] then 0 else |Lines(text)| - 1
  {
    var lines := Lines(text);
    if |lines| == 0 then [] else lines[1..]
  }

  /** `lines[i].split(",")`: every comma separates fields, even one between double quotes. */
  function Fields(line: string): (values: seq<string>)
    ensures |values| >= 1
  {
    Split(line, ',')
  }

  /** A quoted field holding a comma is cut in two at that comma, quotes and all. */
  lemma {:induction false} QuotedCommaSplits(a: string, b: string)
    requires ',' !in a && ',' !in b
    ensures Fields("\"" + a + "," + b + "\"") == ["\"" + a, b + "\""]
  {
    var parts := ["\"" + a, b + "\""];
    assert Join(parts, ',') == "\"" + a + "," + b + "\"";
    SplitJoin(parts, ',');
  }

  /** Below a non-blank header line, the data lines are exactly the lines of the body. */
  lemma {:induction false} DataLinesAfterHeader(header: string, body: string)
    requires '\n' !in header && !IsBlank(header)
    ensures DataLines(header + "\n" + body) == Lines(body)
  {
    LinesAppend(header, body);
    LinesOfOneLine(header);
    assert ([header] + Lines(body))[1..] == Lines(body);
  }

  /** `values[i]?.replace(/"/g, "")`: the i-th field with every double quote removed, or undefined. */
  function Field(values: seq<string>, i: nat): (f: Option<string>)
    ensures f.Some? <==> i < |values|
    ensures i < |values| ==> f.value == RemoveAll(values[i], '"')
    ensures i < |values| ==> '"' !in f.value && multiset(f.value) == multiset(values[i])['"' := 0]
  {
    if i < |values| then
      RemoveAllSpec(values[i], '"');
      Some(RemoveAll(values[i], '"'))
    else None
  }

  /** `Number.parseFloat(values[i]?.replace(/"/g, ""))`: an absent field parses to NaN. */
  function NumberField(values: seq<string>, i: nat, parse: Parser): (x: Option<real>)
    ensures i >= |values| ==> x == None
    ensures i < |values| ==> x == parse(RemoveAll(values[i], '"'))
  {
    match Field(values, i)
    case None => None
    case Some(f) => parse(f)
  }

  /** `Number.parseFloat(values[i])` with the field as it stands, quotes included; an absent field gives NaN. */
  function RawNumberField(values: seq<string>, i: nat, parse: Parser): (x: Option<real>)
    ensures i >= |values| ==> x == None
    ensures i < |values| && '"' !in values[i] ==> x == NumberField(values, i, parse)
  {
    if i >= |values| then None
    else if '"' in values[i] then parse(values[i])
    else
      RemoveAllAbsent(values[i], '"');
      parse(values[i])
  }

  /** `x || d` for a parsed number `x`: NaN and 0 are falsy and give way to `d`. */
  function OrDefault(x: Option<real>, d: real): (r: real)
    ensures x.Some? && x.value != 0.0 ==> r == x.value
    ensures x.None? || x == Some(0.0) ==> r == d
    ensures d != 0.0 ==> r != 0.0
  {
    match x
    case Some(v) => if v != 0.0 then v else d
    case None => d
  }

  /** `x * 100 || 0`: a fraction scaled to a percentage, NaN becoming 0. */
  function Percent(x: Option<real>): (r: real)
    ensures x.None? ==> r == 0.0
    ensures x.Some? ==> r == 100.0 * x.value
  {
    OrDefault(if x.Some? then Some(100.0 * x.value) else None, 0.0)
  }
}
