/** `createHistogram` of the overview tab: counts of values over fixed half-open bins `[min, max)`,
    one bar per bin, in the bins' order. */
module Histogram {

  /** A bin `[min, max)` with the label (`caption`; `label` is a Dafny keyword) shown on the chart. */
  datatype Bin = Bin(min: real, max: real, caption: string)

  /** One bar of the chart: the bin's label and how many values fell into it. */
  datatype Bar = Bar(range: string, count: nat)

  /** `value >= bin.min && value < bin.max`. */
  predicate InBin(v: real, b: Bin) {
    b.min <= v < b.max
  }

  /** `values.filter(value => value >= lo && value < hi).length`. */
  function CountIn(values: seq<real>, lo: real, hi: real): nat {
    if |values| == 0 then 0
    else CountIn(values[..|values| - 1], lo, hi) + (if lo <= values[|values| - 1] < hi then 1 else 0)
  }

  /** The positions of `values` that hold a value in `[lo, hi)`: the reference for what a bin counts. */
  ghost function Positions(values: seq<real>, lo: real, hi: real): set<nat> {
    set i: nat | i < |values| && lo <= values[i] < hi
  }

  /** The count of a bin is the number of positions holding a value in the bin. */
  lemma {:induction false} CountInIsPositions(values: seq<real>, lo: real, hi: real)
    ensures CountIn(values, lo, hi) == |Positions(values, lo, hi)|
  {
    if |values| > 0 {
      var n := |values| - 1;
      var init := values[..n];
      CountInIsPositions(init, lo, hi);
      var before := Positions(init, lo, hi);
      assert Positions(values, lo, hi) == before + (if lo <= values[n] < hi then {n} else {});
      assert n !in before;
    }
  }

  /** `bins.map(bin => ({ range: bin.caption, count: ... }))`: one bar per bin, in bin order, each
      carrying its bin's label and the number of values `v` with `min <= v < max`. */
  function CreateHistogram(values: seq<real>, bins: seq<Bin>): (bars: seq<Bar>)
    ensures |bars| == |bins|
    ensures forall i :: 0 <= i < |bins| ==> bars[i].range == bins[i].caption
    ensures forall i :: 0 <= i < |bins| ==> bars[i].count == |Positions(values, bins[i].min, bins[i].max)|
  {
    assert forall b: Bin :: CountIn(values, b.min, b.max) == |Positions(values, b.min, b.max)| by {
      forall b: Bin {
        CountInIsPositions(values, b.min, b.max);
      }
    }
    seq(|bins|, i requires 0 <= i < |bins| => Bar(bins[i].caption, CountIn(values, bins[i].min, bins[i].max)))
  }

  /** The bins tile one interval: each is non-empty-or-degenerate and ends where the next begins. */
  ghost predicate Contiguous(bins: seq<Bin>) {
    && (forall i :: 0 <= i < |bins| ==> bins[i].min <= bins[i].max)
    && (forall i :: 0 <= i < |bins| - 1 ==> bins[i].max == bins[i + 1].min)
  }

  /** The sum of the bars' counts. */
  function Total(bars: seq<Bar>): nat {
    if |bars| == 0 then 0 else bars[0].count + Total(bars[1..])
  }

  /** Counting over `[a, b)` and `[b, c)` counts over `[a, c)`: the boundary value `b` lands in the second bin only. */
  lemma {:induction false} CountSplit(values: seq<real>, a: real, b: real, c: real)
    requires a <= b <= c
    ensures CountIn(values, a, b) + CountIn(values, b, c) == CountIn(values, a, c)
  {
    if |values| > 0 {
      CountSplit(values[..|values| - 1], a, b, c);
    }
  }

  /** The counts of the bins, added up. */
  function SumCounts(values: seq<real>, bins: seq<Bin>): nat {
    if |bins| == 0 then 0 else CountIn(values, bins[0].min, bins[0].max) + SumCounts(values, bins[1..])
  }

  /** The bars of a histogram add up to the bins' counts. */
  lemma {:induction false} HistogramTotal(values: seq<real>, bins: seq<Bin>)
    ensures Total(CreateHistogram(values, bins)) == SumCounts(values, bins)
  {
    if |bins| > 0 {
      var bars := CreateHistogram(values, bins);
      var rest := CreateHistogram(values, bins[1..]);
      assert bars[1..] == rest;
      HistogramTotal(values, bins[1..]);
      CountInIsPositions(values, bins[0].min, bins[0].max);
    }
  }

  /** Over contiguous bins the counts add up to the count over the whole covered interval. */
  lemma {:induction false} SumContiguous(values: seq<real>, bins: seq<Bin>)
    requires |bins| > 0 && Contiguous(bins)
    ensures SumCounts(values, bins) == CountIn(values, bins[0].min, bins[|bins| - 1].max)
  {
    if |bins| > 1 {
      assert Contiguous(bins[1..]);
      SumContiguous(values, bins[1..]);
      ChainBound(bins, 1, |bins| - 1);
      CountSplit(values, bins[0].min, bins[0].max, bins[|bins| - 1].max);
    }
  }

  /** Over contiguous bins the bars add up to the count over the whole covered interval; values
      outside it are counted nowhere. */
  lemma {:induction false} ContiguousTotal(values: seq<real>, bins: seq<Bin>)
    requires |bins| > 0 && Contiguous(bins)
    ensures Total(CreateHistogram(values, bins)) == CountIn(values, bins[0].min, bins[|bins| - 1].max)
  {
    HistogramTotal(values, bins);
    SumContiguous(values, bins);
  }

  /** In contiguous bins, a later bin starts no earlier than an earlier bin ends. */
  lemma {:induction false} ChainBound(bins: seq<Bin>, i: nat, j: nat)
    requires Contiguous(bins) && 0 < i <= j < |bins|
    ensures bins[i - 1].max <= bins[j].min
    ensures bins[j].min <= bins[j].max
    decreases j - i
  {
    if i < j {
      ChainBound(bins, i + 1, j);
    }
  }

  /** In contiguous bins a value of the covered interval lies in exactly one bin; any other value lies in none. */
  lemma {:induction false} ExactlyOneBin(bins: seq<Bin>, v: real)
    requires |bins| > 0 && Contiguous(bins)
    ensures bins[0].min <= v < bins[|bins| - 1].max ==>
      exists i :: 0 <= i < |bins| && InBin(v, bins[i]) && forall j :: 0 <= j < |bins| && InBin(v, bins[j]) ==> j == i
    ensures !(bins[0].min <= v < bins[|bins| - 1].max) ==> forall j :: 0 <= j < |bins| ==> !InBin(v, bins[j])
  {
    forall j | 0 <= j < |bins|
      ensures bins[0].min <= bins[j].min && bins[j].max <= bins[|bins| - 1].max
    {
      if j > 0 {
        ChainBound(bins, 1, j);
      }
      if j < |bins| - 1 {
        ChainBound(bins, j + 1, |bins| - 1);
      }
    }
    if bins[0].min <= v < bins[|bins| - 1].max {
      var i := FindBin(bins, v);
      forall j | 0 <= j < |bins| && InBin(v, bins[j])
        ensures j == i
      {
        if j < i {
          ChainBound(bins, j + 1, i);
        } else if i < j {
          ChainBound(bins, i + 1, j);
        }
      }
    }
  }

  /** The bin holding `v`, for a value of the interval contiguous bins cover. */
  function FindBin(bins: seq<Bin>, v: real): (i: nat)
    requires |bins| > 0 && Contiguous(bins)
    requires bins[0].min <= v < bins[|bins| - 1].max
    ensures i < |bins| && InBin(v, bins[i])
  {
    if v < bins[0].max then 0
    else
      assert Contiguous(bins[1..]);
      FindBin(bins[1..], v) + 1
  }
}
