/** The ordering both ranking tabs use: `Array.prototype.sort` with the comparator
    `(a, b) => b.metric - a.metric`. The engine's sort is stable (ECMAScript 2019 and later),
    so the result is the non-increasing order in which equal metrics keep their input order;
    here it is computed by a stable insertion sort over items paired with their metric. */
module Sorting {

  /** An item together with the metric it is ordered by. */
  datatype Keyed<T> = Keyed(key: real, item: T)

  /** Non-increasing by metric. */
  ghost predicate SortedDesc<T>(s: seq<Keyed<T>>) {
    forall i, j :: 0 <= i < j < |s| ==> s[i].key >= s[j].key
  }

  /** Every element has a metric no greater than `k`. */
  ghost predicate AllAtMost<T>(s: seq<Keyed<T>>, k: real) {
    forall i :: 0 <= i < |s| ==> s[i].key <= k
  }

  /** A rearrangement of `s` plus `x` keeps the bound both of them respect. */
  lemma {:induction false} BoundByMultiset<T>(s: seq<Keyed<T>>, x: Keyed<T>, r: seq<Keyed<T>>, k: real)
    requires AllAtMost(s, k) && x.key <= k
    requires multiset(r) == multiset(s) + multiset{x}
    ensures AllAtMost(r, k)
  {
    forall i | 0 <= i < |r|
      ensures r[i].key <= k
    {
      assert r[i] in multiset(r);
      if r[i] != x {
        assert r[i] in multiset(s);
        var j :| 0 <= j < |s| && s[j] == r[i];
      }
    }
  }

  /** Inserts `x` into a non-increasing sequence after every element whose metric is at least `x.key`. */
  function Insert<T>(s: seq<Keyed<T>>, x: Keyed<T>): (r: seq<Keyed<T>>)
    requires SortedDesc(s)
    ensures SortedDesc(r)
    ensures multiset(r) == multiset(s) + multiset{x}
    ensures |r| == |s| + 1
  {
    if |s| == 0 then [x]
    else if s[0].key >= x.key then
      var rest := Insert(s[1..], x);
      assert s == [s[0]] + s[1..];
      BoundByMultiset(s[1..], x, rest, s[0].key);
      [s[0]] + rest
    else
      [x] + s
  }

  /** The stable descending sort of `s`. */
  function SortDesc<T>(s: seq<Keyed<T>>): (r: seq<Keyed<T>>)
    ensures SortedDesc(r)
    ensures multiset(r) == multiset(s)
    ensures |r| == |s|
  {
    if |s| == 0 then []
    else
      assert s == s[..|s| - 1] + [s[|s| - 1]];
      Insert(SortDesc(s[..|s| - 1]), s[|s| - 1])
  }

  /** The elements whose metric is `k`, in order. */
  function Ties<T>(s: seq<Keyed<T>>, k: real): seq<Keyed<T>> {
    if |s| == 0 then []
    else (if s[0].key == k then [s[0]] else []) + Ties(s[1..], k)
  }

  /** Ties of a concatenation are the ties of each part. */
  lemma {:induction false} TiesAppend<T>(a: seq<Keyed<T>>, b: seq<Keyed<T>>, k: real)
    ensures Ties(a + b, k) == Ties(a, k) + Ties(b, k)
  {
    if |a| == 0 {
      assert a + b == b;
    } else {
      assert a + b == [a[0]] + (a[1..] + b);
      TiesAppend(a[1..], b, k);
      TiesCons(a[0], a[1..] + b, k);
      TiesCons(a[0], a[1..], k);
      assert [a[0]] + a[1..] == a;
    }
  }

  /** Elements whose metrics are all below `k` have no ties at `k`. */
  lemma {:induction false} NoTies<T>(s: seq<Keyed<T>>, k: real)
    requires forall i :: 0 <= i < |s| ==> s[i].key < k
    ensures Ties(s, k) == []
  {
    if |s| > 0 {
      NoTies(s[1..], k);
    }
  }

  /** One step of `Ties`, on a sequence written as a first element and the rest. */
  lemma {:induction false} TiesCons<T>(y: Keyed<T>, s: seq<Keyed<T>>, k: real)
    ensures Ties([y] + s, k) == (if y.key == k then [y] else []) + Ties(s, k)
  {
    assert ([y] + s)[1..] == s;
  }

  /** The first tie of `k` is the first element of `s` with key `k`: every element before it has another key. */
  lemma {:induction false} FirstTie<T>(s: seq<Keyed<T>>, k: real)
    requires Ties(s, k) != []
    ensures exists i :: 0 <= i < |s| && s[i] == Ties(s, k)[0] && s[i].key == k && forall j :: 0 <= j < i ==> s[j].key != k
  {
    if s[0].key != k {
      FirstTie(s[1..], k);
      var i :| 0 <= i < |s[1..]| && s[1..][i] == Ties(s[1..], k)[0] && s[1..][i].key == k
        && forall j :: 0 <= j < i ==> s[1..][j].key != k;
      assert s[i + 1] == s[1..][i];
      forall j | 0 <= j < i + 1
        ensures s[j].key != k
      {
        if j > 0 {
          assert s[j] == s[1..][j - 1];
        }
      }
    }
  }

  /** Inserting `x` appends it to the elements that share its metric. */
  lemma {:induction false} InsertTies<T>(s: seq<Keyed<T>>, x: Keyed<T>, k: real)
    requires SortedDesc(s)
    ensures Ties(Insert(s, x), k) == Ties(s, k) + (if x.key == k then [x] else [])
  {
    if |s| == 0 {
      TiesCons(x, [], k);
    } else if s[0].key >= x.key {
      var rest := Insert(s[1..], x);
      var head := if s[0].key == k then [s[0]] else [];
      var tail := if x.key == k then [x] else [];
      calc {
        Ties(Insert(s, x), k);
        Ties([s[0]] + rest, k);
        { TiesCons(s[0], rest, k); }
        head + Ties(rest, k);
        { InsertTies(s[1..], x, k); }
        head + (Ties(s[1..], k) + tail);
        (head + Ties(s[1..], k)) + tail;
        { TiesCons(s[0], s[1..], k); assert [s[0]] + s[1..] == s; }
        Ties(s, k) + tail;
      }
    } else {
      assert Insert(s, x) == [x] + s;
      TiesCons(x, s, k);
      if x.key == k {
        NoTies(s, k);
      }
    }
  }

  /** Stability: sorting keeps, for every metric value, the input order of the elements with that metric. */
  lemma {:induction false} SortKeepsTies<T>(s: seq<Keyed<T>>, k: real)
    ensures Ties(SortDesc(s), k) == Ties(s, k)
  {
    if |s| > 0 {
      var init, last := s[..|s| - 1], s[|s| - 1];
      var sorted := SortDesc(init);
      var tail := if last.key == k then [last] else [];
      calc {
        Ties(SortDesc(s), k);
        Ties(Insert(sorted, last), k);
        { InsertTies(sorted, last, k); }
        Ties(sorted, k) + tail;
        { SortKeepsTies(init, k); }
        Ties(init, k) + tail;
        { TiesCons(last, [], k); assert [last] + [] == [last]; }
        Ties(init, k) + Ties([last], k);
        { TiesAppend(init, [last], k); }
        Ties(init + [last], k);
        { assert s == init + [last]; }
        Ties(s, k);
      }
    }
  }

  /** What the first `n` positions of the sorted order leave out has a metric no greater than the last one kept. */
  lemma {:induction false} PrefixIsTop<T>(s: seq<Keyed<T>>, n: nat)
    requires 0 < n <= |s|
    ensures forall x | x in multiset(s) - multiset(SortDesc(s)[..n]) :: x.key <= SortDesc(s)[n - 1].key
  {
    var r := SortDesc(s);
    SplitMultiset(r, n);
    SortedRestBound(r, n);
  }

  /** Cutting a sequence at `n`: what the prefix leaves of the whole is the suffix. */
  lemma {:induction false} SplitMultiset<T>(r: seq<T>, n: nat)
    requires n <= |r|
    ensures multiset(r) - multiset(r[..n]) == multiset(r[n..])
  {
    assert r == r[..n] + r[n..];
  }

  /** In a non-increasing sequence, nothing after position `n - 1` has a greater metric. */
  lemma {:induction false} SortedRestBound<T>(r: seq<Keyed<T>>, n: nat)
    requires SortedDesc(r) && 0 < n <= |r|
    ensures forall x | x in multiset(r[n..]) :: x.key <= r[n - 1].key
  {
    forall x: Keyed<T> | x in multiset(r[n..])
      ensures x.key <= r[n - 1].key
    {
      var j :| 0 <= j < |r[n..]| && r[n..][j] == x;
      assert r[n + j] == x;
    }
  }


  /** The items of keyed pairs. */
  function Items<T>(s: seq<Keyed<T>>): (r: seq<T>)
    ensures |r| == |s|
    ensures forall i :: 0 <= i < |s| ==> r[i] == s[i].item
  {
    seq(|s|, i requires 0 <= i < |s| => s[i].item)
  }

  /** The items of a concatenation. */
  lemma {:induction false} ItemsAppend<T>(a: seq<Keyed<T>>, b: seq<Keyed<T>>)
    ensures Items(a + b) == Items(a) + Items(b)
  {
  }

  /** Rearranging the pairs rearranges their items. */
  lemma {:induction false} ItemsPermutation<T>(a: seq<Keyed<T>>, b: seq<Keyed<T>>)
    requires multiset(a) == multiset(b)
    ensures multiset(Items(a)) == multiset(Items(b))
    decreases |a|
  {
    if |a| > 0 {
      var x := a[0];
      assert x in multiset(b);
      var j :| 0 <= j < |b| && b[j] == x;
      var b' := b[..j] + b[j + 1..];
      assert b == b[..j] + [x] + b[j + 1..];
      assert a == [x] + a[1..];
      calc {
        multiset(a[1..]);
        multiset(a) - multiset{x};
        multiset(b) - multiset{x};
        multiset(b[..j]) + multiset{x} + multiset(b[j + 1..]) - multiset{x};
        multiset(b');
      }
      ItemsPermutation(a[1..], b');
      ItemsAppend([x], a[1..]);
      ItemsAppend(b[..j] + [x], b[j + 1..]);
      ItemsAppend(b[..j], [x]);
      ItemsAppend(b[..j], b[j + 1..]);
    }
  }

  /** A prefix's items are among the whole sequence's items. */
  lemma {:induction false} PrefixItems<T>(s: seq<Keyed<T>>, n: nat)
    requires n <= |s|
    ensures multiset(Items(s[..n])) <= multiset(Items(s))
    ensures multiset(Items(s)) - multiset(Items(s[..n])) == multiset(Items(s[n..]))
  {
    assert s == s[..n] + s[n..];
    ItemsAppend(s[..n], s[n..]);
  }
}
