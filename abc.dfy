/** The ABC classification shared by the product and the ingredient analyses: sum per key,
    rank in descending order, accumulate percentage shares, and bin the cumulative share with
    `pd.cut(…, bins=[0, 80, 95, 100], labels=['A', 'B', 'C'])`. */
module Abc {
  import opened Common

  datatype Category = A | B | C

  /** The position of a category along the ranking: A before B before C. */
  function Rank(c: Category): nat
  {
    match c
    case A => 0
    case B => 1
    case C => 2
  }

  /** A keyed amount: an article (or ingredient) and its demand (or quantity). */
  type Item = (string, real)

  function Demand(x: Item): real
  {
    x.1
  }

  /** The keys of a sequence of keyed entries, in order. */
  function Keys<V>(xs: seq<(string, V)>): (r: seq<string>)
    ensures |r| == |xs| && forall i :: 0 <= i < |xs| ==> r[i] == xs[i].0
  {
    seq(|xs|, i requires 0 <= i < |xs| => xs[i].0)
  }

  function Values(xs: seq<Item>): (r: seq<real>)
    ensures |r| == |xs| && forall i :: 0 <= i < |xs| ==> r[i] == xs[i].1
  {
    seq(|xs|, i requires 0 <= i < |xs| => xs[i].1)
  }

  // ---------------------------------------------------------------------------------------
  // pd.cut

  /** The edges and labels every ABC script passes to `pd.cut`. */
  const Bins: seq<real> := [0.0, 80.0, 95.0, 100.0]
  const Labels: seq<Category> := [A, B, C]

  predicate StrictlyIncreasing(bins: seq<real>)
  {
    forall i, j :: 0 <= i < j < |bins| ==> bins[i] < bins[j]
  }

  /** `x` falls in the right-closed interval (bins[i], bins[i+1]]. */
  predicate InBin(x: real, bins: seq<real>, i: nat)
    requires i + 1 < |bins|
  {
    bins[i] < x <= bins[i + 1]
  }

  /** `pd.cut` with right-closed intervals, scanning from interval `k`: the label of the
      interval that holds `x`, and no label when none does. */
  function CutFrom(x: real, bins: seq<real>, labels: seq<Category>, k: nat): (r: Option<Category>)
    requires |bins| == |labels| + 1 && StrictlyIncreasing(bins)
    ensures r.Some? <==> exists i :: k <= i < |labels| && InBin(x, bins, i)
    ensures forall i :: k <= i < |labels| && InBin(x, bins, i) ==> r == Some(labels[i])
    decreases |labels| - k
  {
    if k >= |labels| then None
    else if bins[k] < x <= bins[k + 1] then
      assert InBin(x, bins, k);
      Some(labels[k])
    else CutFrom(x, bins, labels, k + 1)
  }

  /** The category of a cumulative percentage: A on (0, 80], B on (80, 95], C on (95, 100],
      and none outside (0, 100]. */
  function Cut(x: real): (r: Option<Category>)
    ensures r == Some(A) <==> 0.0 < x <= 80.0
    ensures r == Some(B) <==> 80.0 < x <= 95.0
    ensures r == Some(C) <==> 95.0 < x <= 100.0
    ensures r == None <==> x <= 0.0 || 100.0 < x
  {
    assert StrictlyIncreasing(Bins);
    var r := CutFrom(x, Bins, Labels, 0);
    assert r.Some? ==> InBin(x, Bins, 0) || InBin(x, Bins, 1) || InBin(x, Bins, 2);
    r
  }

  /** Along increasing cumulative percentages inside (0, 100] the category never goes back. */
  lemma CutMonotone(x: real, y: real)
    requires 0.0 < x <= y <= 100.0
    ensures Cut(x).Some? && Cut(y).Some?
    ensures Rank(Cut(x).value) <= Rank(Cut(y).value)
  {
  }

  // ---------------------------------------------------------------------------------------
  // cumsum

  /** `Series.cumsum`: entry `i` is the sum of the first `i + 1` values. */
  function Cumsum(xs: seq<real>): (r: seq<real>)
    ensures |r| == |xs|
    ensures forall i :: 0 <= i < |xs| ==> r[i] == Sum(xs[..i + 1])
  {
    if |xs| == 0 then []
    else
      var init := xs[..|xs| - 1];
      var rest := Cumsum(init);
      assert forall j :: 1 <= j <= |init| ==> init[..j] == xs[..j];
      assert xs[..|xs|] == xs;
      rest + [Sum(xs)]
  }

  predicate NonNegative(xs: seq<real>)
  {
    forall i :: 0 <= i < |xs| ==> 0.0 <= xs[i]
  }

  lemma {:induction false} SumPrefixSplit(xs: seq<real>, i: nat, j: nat)
    requires i <= j <= |xs|
    ensures Sum(xs[..j]) == Sum(xs[..i]) + Sum(xs[i..j])
  {
    assert xs[..j] == xs[..i] + xs[i..j];
    SumAppend(xs[..i], xs[i..j]);
  }

  /** With non-negative values the running total never decreases. */
  lemma {:induction false} CumsumNonDecreasing(xs: seq<real>, i: nat, j: nat)
    requires NonNegative(xs) && i <= j < |xs|
    ensures Cumsum(xs)[i] <= Cumsum(xs)[j]
  {
    SumPrefixSplit(xs, i + 1, j + 1);
    SumNonNegative(xs[i + 1..j + 1]);
  }

  /** The running total ends at the sum of all values. */
  lemma {:induction false} CumsumLast(xs: seq<real>)
    requires 0 < |xs|
    ensures Cumsum(xs)[|xs| - 1] == Sum(xs)
  {
    assert xs[..|xs|] == xs;
  }


  // ---------------------------------------------------------------------------------------
  // sort_values(ascending=False)

  predicate SortedDesc<T>(xs: seq<T>, key: T -> real)
  {
    forall i, j :: 0 <= i < j < |xs| ==> key(xs[i]) >= key(xs[j])
  }

  /** Inserts `x` after every leading element whose key is at least its own. */
  function Insert<T>(x: T, xs: seq<T>, key: T -> real): (r: seq<T>)
    ensures |r| == |xs| + 1
    ensures multiset(r) == multiset(xs) + multiset{x}
  {
    if |xs| == 0 then [x]
    else if key(xs[0]) >= key(x) then
      assert xs == [xs[0]] + xs[1..];
      [xs[0]] + Insert(x, xs[1..], key)
    else [x] + xs
  }

  lemma {:induction false} InsertBounded<T>(x: T, xs: seq<T>, key: T -> real, b: real)
    requires key(x) <= b && forall k :: 0 <= k < |xs| ==> key(xs[k]) <= b
    ensures forall k :: 0 <= k < |xs| + 1 ==> key(Insert(x, xs, key)[k]) <= b
  {
    if |xs| > 0 && key(xs[0]) >= key(x) {
      InsertBounded(x, xs[1..], key, b);
    }
  }

  lemma {:induction false} InsertSorted<T>(x: T, xs: seq<T>, key: T -> real)
    requires SortedDesc(xs, key)
    ensures SortedDesc(Insert(x, xs, key), key)
  {
    if |xs| > 0 && key(xs[0]) >= key(x) {
      var rest := Insert(x, xs[1..], key);
      InsertSorted(x, xs[1..], key);
      InsertBounded(x, xs[1..], key, key(xs[0]));
      assert Insert(x, xs, key) == [xs[0]] + rest;
    }
  }

  /** A stable descending sort by `key` (insertion sort). */
  function SortDesc<T>(xs: seq<T>, key: T -> real): (r: seq<T>)
    ensures |r| == |xs|
    ensures multiset(r) == multiset(xs)
  {
    if |xs| == 0 then []
    else
      assert xs == xs[..|xs| - 1] + [xs[|xs| - 1]];
      Insert(xs[|xs| - 1], SortDesc(xs[..|xs| - 1], key), key)
  }

  /** The result of the sort is in non-increasing order of the key. */
  lemma {:induction false} SortDescSorted<T>(xs: seq<T>, key: T -> real)
    ensures SortedDesc(SortDesc(xs, key), key)
  {
    if |xs| > 0 {
      SortDescSorted(xs[..|xs| - 1], key);
      InsertSorted(xs[|xs| - 1], SortDesc(xs[..|xs| - 1], key), key);
    }
  }

  function Map<T, U>(xs: seq<T>, f: T -> U): (r: seq<U>)
    ensures |r| == |xs| && forall i :: 0 <= i < |xs| ==> r[i] == f(xs[i])
  {
    seq(|xs|, i requires 0 <= i < |xs| => f(xs[i]))
  }

  /** `f` leaves the sort key as it was. */
  ghost predicate KeepsKey<T(!new), U>(key: T -> real, f: T -> U, key': U -> real)
  {
    forall y :: key'(f(y)) == key(y)
  }

  lemma MapCons<T, U>(a: T, xs: seq<T>, f: T -> U)
    ensures Map([a] + xs, f) == [f(a)] + Map(xs, f)
  {
    assert Map([a] + xs, f)[1..] == Map(xs, f);
  }

  lemma {:induction false} InsertMap<T(!new), U>(x: T, xs: seq<T>, key: T -> real, f: T -> U, key': U -> real)
    requires KeepsKey(key, f, key')
    ensures Insert(f(x), Map(xs, f), key') == Map(Insert(x, xs, key), f)
  {
    if |xs| > 0 {
      var m := Map(xs, f);
      assert key'(m[0]) == key(xs[0]) && key'(f(x)) == key(x);
      if key(xs[0]) >= key(x) {
        InsertMap(x, xs[1..], key, f, key');
        assert m[1..] == Map(xs[1..], f);
        assert Insert(f(x), m, key') == [m[0]] + Insert(f(x), m[1..], key');
        assert Insert(x, xs, key) == [xs[0]] + Insert(x, xs[1..], key);
        MapCons(xs[0], Insert(x, xs[1..], key), f);
      } else {
        assert Insert(x, xs, key) == [x] + xs;
        MapCons(x, xs, f);
      }
    }
  }

  /** Sorting commutes with a column computed element by element, as long as the sort key
      is carried along unchanged. */
  lemma {:induction false} SortMap<T(!new), U>(xs: seq<T>, key: T -> real, f: T -> U, key': U -> real)
    requires KeepsKey(key, f, key')
    ensures SortDesc(Map(xs, f), key') == Map(SortDesc(xs, key), f)
  {
    if |xs| > 0 {
      var init := xs[..|xs| - 1];
      var x := xs[|xs| - 1];
      var m := Map(xs, f);
      assert m[..|m| - 1] == Map(init, f);
      assert m[|m| - 1] == f(x);
      calc {
        SortDesc(m, key');
        Insert(f(x), SortDesc(Map(init, f), key'), key');
        { SortMap(init, key, f, key'); }
        Insert(f(x), Map(SortDesc(init, key), f), key');
        { InsertMap(x, SortDesc(init, key), key, f, key'); }
        Map(Insert(x, SortDesc(init, key), key), f);
        Map(SortDesc(xs, key), f);
      }
    }
  }

  lemma {:induction false} SumCons(a: real, xs: seq<real>)
    ensures Sum([a] + xs) == a + Sum(xs)
  {
    SumAppend([a], xs);
    assert Sum([a]) == Sum([]) + a;
  }

  lemma ValuesCons(a: Item, xs: seq<Item>)
    ensures Values([a] + xs) == [a.1] + Values(xs)
  {
    assert Values([a] + xs)[1..] == Values(xs);
  }

  lemma {:induction false} InsertSum(x: Item, xs: seq<Item>)
    ensures Sum(Values(Insert(x, xs, Demand))) == Sum(Values(xs)) + x.1
  {
    if |xs| == 0 {
      assert Values([x]) == [x.1];
      SumCons(x.1, []);
    } else {
      assert xs == [xs[0]] + xs[1..];
      ValuesCons(xs[0], xs[1..]);
      SumCons(xs[0].1, Values(xs[1..]));
      if Demand(xs[0]) >= Demand(x) {
        var rest := Insert(x, xs[1..], Demand);
        InsertSum(x, xs[1..]);
        assert Insert(x, xs, Demand) == [xs[0]] + rest;
        ValuesCons(xs[0], rest);
        SumCons(xs[0].1, Values(rest));
      } else {
        assert Insert(x, xs, Demand) == [x] + xs;
        ValuesCons(x, xs);
        SumCons(x.1, Values(xs));
      }
    }
  }

  /** Ranking keeps the grand total. */
  lemma {:induction false} SortSum(xs: seq<Item>)
    ensures Sum(Values(SortDesc(xs, Demand))) == Sum(Values(xs))
  {
    if |xs| > 0 {
      var init := xs[..|xs| - 1];
      SortSum(init);
      InsertSum(xs[|xs| - 1], SortDesc(init, Demand));
      assert Values(xs)[..|xs| - 1] == Values(init);
    }
  }

  /** Every ranked value is one of the input values. */
  lemma {:induction false} SortedValueFromInput(xs: seq<Item>, i: nat)
    requires i < |xs|
    ensures exists j :: 0 <= j < |xs| && Values(xs)[j] == Values(SortDesc(xs, Demand))[i]
  {
    var r := SortDesc(xs, Demand);
    assert r[i] in multiset(xs);
    var j :| 0 <= j < |xs| && xs[j] == r[i];
    assert Values(xs)[j] == Values(r)[i];
  }

  // ---------------------------------------------------------------------------------------
  // groupby(key).sum()

  /** The total of the values of the rows with key `k`. */
  function SumFor(rows: seq<Item>, k: string): real
  {
    if |rows| == 0 then 0.0
    else SumFor(rows[..|rows| - 1], k) + (if rows[|rows| - 1].0 == k then rows[|rows| - 1].1 else 0.0)
  }

  /** One entry per key of `ks`, holding the total of that key's rows. */
  function GroupsOf(ks: seq<string>, rows: seq<Item>): (r: seq<Item>)
    ensures |r| == |ks| && forall i :: 0 <= i < |ks| ==> r[i] == (ks[i], SumFor(rows, ks[i]))
  {
    if |ks| == 0 then []
    else GroupsOf(ks[..|ks| - 1], rows) + [(ks[|ks| - 1], SumFor(rows, ks[|ks| - 1]))]
  }

  /** `groupby(key)[value].sum()`: one entry per distinct key of the rows (in order of first
      appearance), exactly the keys that occur, each holding the total of that key's rows. */
  function GroupSum(rows: seq<Item>): (r: seq<Item>)
    ensures Distinct(Keys(r))
    ensures forall k :: k in Keys(r) <==> k in Keys(rows)
    ensures forall i :: 0 <= i < |r| ==> r[i].1 == SumFor(rows, r[i].0)
  {
    var g := GroupsOf(Unique(Keys(rows)), rows);
    assert Keys(g) == Unique(Keys(rows));
    g
  }

  /** The totals of the keys `ks`, added up. */
  function SumOver(ks: seq<string>, rows: seq<Item>): real
  {
    if |ks| == 0 then 0.0 else SumOver(ks[..|ks| - 1], rows) + SumFor(rows, ks[|ks| - 1])
  }

  lemma {:induction false} GroupsOfSum(ks: seq<string>, rows: seq<Item>)
    ensures Sum(Values(GroupsOf(ks, rows))) == SumOver(ks, rows)
  {
    if |ks| > 0 {
      var init := ks[..|ks| - 1];
      GroupsOfSum(init, rows);
      var v := Values(GroupsOf(ks, rows));
      assert v[..|init|] == Values(GroupsOf(init, rows));
    }
  }

  lemma {:induction false} SumOverSnoc(ks: seq<string>, rows: seq<Item>, x: Item)
    requires Distinct(ks)
    ensures SumOver(ks, rows + [x]) == SumOver(ks, rows) + (if x.0 in ks then x.1 else 0.0)
  {
    if |ks| > 0 {
      var init := ks[..|ks| - 1];
      var k := ks[|ks| - 1];
      assert ks == init + [k];
      assert Distinct(init);
      SumOverSnoc(init, rows, x);
      assert (rows + [x])[..|rows|] == rows;
      assert SumFor(rows + [x], k) == SumFor(rows, k) + (if x.0 == k then x.1 else 0.0);
      assert k !in init;
    }
  }

  lemma {:induction false} SumForMissing(rows: seq<Item>, k: string)
    requires k !in Keys(rows)
    ensures SumFor(rows, k) == 0.0
  {
    if |rows| > 0 {
      assert Keys(rows[..|rows| - 1]) == Keys(rows)[..|rows| - 1];
      SumForMissing(rows[..|rows| - 1], k);
    }
  }

  /** Grouping keeps the grand total. */
  lemma {:induction false} GroupSumTotal(rows: seq<Item>)
    ensures Sum(Values(GroupSum(rows))) == Sum(Values(rows))
  {
    GroupsOfSum(Unique(Keys(rows)), rows);
    UniqueSumOver(rows);
  }

  lemma {:induction false} UniqueSumOver(rows: seq<Item>)
    ensures SumOver(Unique(Keys(rows)), rows) == Sum(Values(rows))
  {
    if |rows| > 0 {
      var init := rows[..|rows| - 1];
      var x := rows[|rows| - 1];
      var ks := Keys(rows);
      var vs := Values(rows);
      var u := Unique(Keys(init));
      assert ks[..|ks| - 1] == Keys(init);
      assert vs[..|vs| - 1] == Values(init);
      assert rows == init + [x];
      UniqueSumOver(init);
      SumOverSnoc(u, init, x);
      if x.0 !in u {
        assert Unique(ks) == u + [x.0];
        assert (u + [x.0])[..|u|] == u;
        SumForMissing(init, x.0);
        assert SumFor(rows, x.0) == x.1;
      } else {
        assert Unique(ks) == u;
      }
    }
  }

  // ---------------------------------------------------------------------------------------
  // Shares and their running total

  /** `x * 100 / t`: the percentage `x` is of `t`. */
  function Percent(x: real, t: real): real
    requires t != 0.0
  {
    x * 100.0 / t
  }

  lemma PercentNonNegative(x: real, t: real)
    requires 0.0 <= x && 0.0 < t
    ensures 0.0 <= Percent(x, t)
  {
  }

  lemma PercentPositive(x: real, t: real)
    requires 0.0 < x && 0.0 < t
    ensures 0.0 < Percent(x, t)
  {
  }

  lemma PercentAdd(a: real, b: real, t: real)
    requires t != 0.0
    ensures Percent(a, t) + Percent(b, t) == Percent(a + b, t)
  {
  }

  lemma PercentOfTotal(t: real)
    requires t != 0.0
    ensures Percent(t, t) == 100.0
  {
  }

  lemma PercentScale(x: real, t: real)
    requires t != 0.0
    ensures Percent(x, t) == x / t * 100.0
  {
  }

  /** Percentage shares `d * 100 / total`. */
  function Shares(ds: seq<real>): (r: seq<real>)
    requires Sum(ds) != 0.0
    ensures |r| == |ds| && forall i :: 0 <= i < |ds| ==> r[i] == Percent(ds[i], Sum(ds))
  {
    seq(|ds|, i requires 0 <= i < |ds| => Percent(ds[i], Sum(ds)))
  }

  lemma {:induction false} SharesPrefixSum(ds: seq<real>, k: nat)
    requires Sum(ds) != 0.0 && k <= |ds|
    ensures Sum(Shares(ds)[..k]) == Percent(Sum(ds[..k]), Sum(ds))
  {
    if k > 0 {
      var t := Sum(ds);
      var pct := Shares(ds);
      SharesPrefixSum(ds, k - 1);
      assert pct[..k][..k - 1] == pct[..k - 1];
      assert ds[..k][..k - 1] == ds[..k - 1];
      assert Sum(pct[..k]) == Sum(pct[..k - 1]) + pct[k - 1];
      assert Sum(ds[..k]) == Sum(ds[..k - 1]) + ds[k - 1];
      PercentAdd(Sum(ds[..k - 1]), ds[k - 1], t);
    }
  }

  /** When the total is non-zero the shares add up to 100. */
  lemma {:induction false} SharesSumTo100(ds: seq<real>)
    requires Sum(ds) != 0.0
    ensures Sum(Shares(ds)) == 100.0
  {
    SharesPrefixSum(ds, |ds|);
    assert Shares(ds)[..|ds|] == Shares(ds);
    assert ds[..|ds|] == ds;
    PercentOfTotal(Sum(ds));
  }

  /** Accumulating the shares equals scaling the running total: `cumsum(d * 100 / T)` is
      `cumsum(d) / T * 100`, the form the ingredient analysis writes. */
  lemma {:induction false} SharesThenCumsum(ds: seq<real>, i: nat)
    requires Sum(ds) != 0.0 && i < |ds|
    ensures Cumsum(Shares(ds))[i] == Cumsum(ds)[i] / Sum(ds) * 100.0
  {
    var k := i + 1;
    SharesPrefixSum(ds, k);
    assert Cumsum(Shares(ds))[i] == Sum(Shares(ds)[..k]);
    assert Cumsum(ds)[i] == Sum(ds[..k]);
    PercentScale(Sum(ds[..k]), Sum(ds));
  }

  lemma {:induction false} AllZeroSum(ds: seq<real>)
    requires forall i :: 0 <= i < |ds| ==> ds[i] == 0.0
    ensures Sum(ds) == 0.0
  {
    if |ds| > 0 {
      AllZeroSum(ds[..|ds| - 1]);
    }
  }

  /** The top entry of a non-increasing ranking with non-negative values and a positive
      total is positive. */
  lemma {:induction false} TopIsPositive(ds: seq<real>)
    requires NonNegative(ds) && 0.0 < Sum(ds)
    requires forall i, j :: 0 <= i < j < |ds| ==> ds[i] >= ds[j]
    ensures 0 < |ds| && 0.0 < ds[0]
  {
    if |ds| == 0 || ds[0] <= 0.0 {
      AllZeroSum(ds);
    }
  }

  /** Along a non-increasing ranking of non-negative values with a positive total, the
      cumulative percentage lies in (0, 100], never decreases and ends at 100. */
  lemma {:induction false} CumulativeBounds(ds: seq<real>)
    requires NonNegative(ds) && 0.0 < Sum(ds)
    requires forall i, j :: 0 <= i < j < |ds| ==> ds[i] >= ds[j]
    ensures 0 < |ds|
    ensures forall i :: 0 <= i < |ds| ==> 0.0 < Cumsum(Shares(ds))[i] <= 100.0
    ensures forall i, j :: 0 <= i <= j < |ds| ==> Cumsum(Shares(ds))[i] <= Cumsum(Shares(ds))[j]
    ensures Cumsum(Shares(ds))[|ds| - 1] == 100.0
  {
    TopIsPositive(ds);
    SharesNonNegative(ds);
    var pct := Shares(ds);
    var cum := Cumsum(pct);
    SharesSumTo100(ds);
    CumsumLast(pct);
    CumsumFirst(pct);
    PercentPositive(ds[0], Sum(ds));
    forall i, j | 0 <= i <= j < |ds| ensures cum[i] <= cum[j] {
      CumsumNonDecreasing(pct, i, j);
    }
  }

  lemma {:induction false} SharesNonNegative(ds: seq<real>)
    requires NonNegative(ds) && 0.0 < Sum(ds)
    ensures NonNegative(Shares(ds))
  {
    forall i | 0 <= i < |ds| ensures 0.0 <= Shares(ds)[i] {
      PercentNonNegative(ds[i], Sum(ds));
    }
  }

  lemma {:induction false} CumsumFirst(xs: seq<real>)
    requires 0 < |xs|
    ensures Cumsum(xs)[0] == xs[0]
  {
    assert xs[..1] == [xs[0]];
    assert Sum(xs[..1]) == Sum([]) + xs[0];
  }

  // ---------------------------------------------------------------------------------------
  // The classification

  /** One row of the result: the key, its total, its percentage share, the cumulative
      percentage and its category. Share and cumulative percentage are missing (NaN or
      infinite in the source) when the grand total is zero, and so is the category. */
  datatype AbcRow = AbcRow(article: string, demand: real, share: Option<real>,
                           cumulative: Option<real>, category: Option<Category>)

  /** The pipeline of `abc_analysis`: rank by total in descending order, then share,
      cumulative share and category along the ranking. */
  function Analysis(items: seq<Item>): (r: seq<AbcRow>)
    ensures |r| == |items|
  {
    var ranked := SortDesc(items, Demand);
    var ds := Values(ranked);
    if Sum(ds) == 0.0 then
      seq(|ranked|, i requires 0 <= i < |ranked| => AbcRow(ranked[i].0, ranked[i].1, None, None, None))
    else
      var pct := Shares(ds);
      var cum := Cumsum(pct);
      seq(|ranked|, i requires 0 <= i < |ranked| =>
        AbcRow(ranked[i].0, ranked[i].1, Some(pct[i]), Some(cum[i]), Cut(cum[i])))
  }

  function RowItem(r: AbcRow): Item
  {
    (r.article, r.demand)
  }

  /** The rows carry the input items, ranked in non-increasing order of the total. */
  lemma {:induction false} AnalysisRanks(items: seq<Item>)
    ensures Map(Analysis(items), RowItem) == SortDesc(items, Demand)
    ensures multiset(Map(Analysis(items), RowItem)) == multiset(items)
    ensures forall i, j :: 0 <= i < j < |items| ==> Analysis(items)[i].demand >= Analysis(items)[j].demand
  {
    var ranked := SortDesc(items, Demand);
    SortDescSorted(items, Demand);
    assert Map(Analysis(items), RowItem) == ranked;
    assert forall i :: 0 <= i < |items| ==> Analysis(items)[i].demand == Demand(ranked[i]);
  }

  /** The ranking on two positions. */
  lemma AnalysisRanksAt(items: seq<Item>, i: nat, j: nat)
    requires i <= j < |items|
    ensures Analysis(items)[i].demand >= Analysis(items)[j].demand
  {
    if i < j {
      AnalysisRanks(items);
    }
  }

  /** With a zero grand total no row gets a share, a cumulative percentage or a category. */
  lemma {:induction false} ZeroTotalLeavesRowsUnclassified(items: seq<Item>)
    requires Sum(Values(items)) == 0.0
    ensures forall i :: 0 <= i < |items| ==>
      Analysis(items)[i].share == None && Analysis(items)[i].cumulative == None && Analysis(items)[i].category == None
  {
    SortSum(items);
  }

  /** With a non-zero grand total each share is the row's total × 100 / grand total and
      the shares add up to 100. */
  lemma {:induction false} AnalysisShares(items: seq<Item>)
    requires Sum(Values(items)) != 0.0
    ensures Sum(Values(SortDesc(items, Demand))) == Sum(Values(items))
    ensures forall i :: 0 <= i < |items| ==>
      Analysis(items)[i].share == Some(Percent(Analysis(items)[i].demand, Sum(Values(items))))
    ensures Sum(Shares(Values(SortDesc(items, Demand)))) == 100.0
  {
    SortSum(items);
    SharesSumTo100(Values(SortDesc(items, Demand)));
    forall i | 0 <= i < |items|
      ensures Analysis(items)[i].share == Some(Percent(Analysis(items)[i].demand, Sum(Values(items))))
    {
      AnalysisAt(items, i);
    }
  }

  /** With a non-zero grand total the cumulative percentage of row `i` is the sum of the
      shares of rows 0..i, and the category is the bin of that cumulative percentage. */
  lemma {:induction false} AnalysisCumulative(items: seq<Item>)
    requires Sum(Values(items)) != 0.0
    ensures Sum(Values(SortDesc(items, Demand))) != 0.0
    ensures forall i :: 0 <= i < |items| ==>
      Analysis(items)[i].cumulative == Some(Sum(Shares(Values(SortDesc(items, Demand)))[..i + 1]))
    ensures forall i :: 0 <= i < |items| ==>
      Analysis(items)[i].cumulative.Some? && Analysis(items)[i].category == Cut(Analysis(items)[i].cumulative.value)
  {
    SortSum(items);
    forall i | 0 <= i < |items|
      ensures Analysis(items)[i].cumulative == Some(Sum(Shares(Values(SortDesc(items, Demand)))[..i + 1]))
      ensures Analysis(items)[i].category == Cut(Analysis(items)[i].cumulative.value)
    {
      AnalysisAt(items, i);
    }
  }

  /** Row `i` of the analysis, field by field. */
  lemma {:induction false} AnalysisAt(items: seq<Item>, i: nat)
    requires i < |items|
    ensures Analysis(items)[i].article == SortDesc(items, Demand)[i].0
    ensures Analysis(items)[i].demand == Values(SortDesc(items, Demand))[i]
    ensures Sum(Values(SortDesc(items, Demand))) == 0.0 ==>
      Analysis(items)[i].share == None && Analysis(items)[i].cumulative == None && Analysis(items)[i].category == None
    ensures Sum(Values(SortDesc(items, Demand))) != 0.0 ==>
      Analysis(items)[i].share == Some(Shares(Values(SortDesc(items, Demand)))[i]) &&
      Analysis(items)[i].cumulative == Some(Cumsum(Shares(Values(SortDesc(items, Demand))))[i]) &&
      Analysis(items)[i].category == Cut(Cumsum(Shares(Values(SortDesc(items, Demand))))[i])
  {
  }

  lemma {:induction false} RankedValues(items: seq<Item>)
    requires NonNegative(Values(items))
    ensures NonNegative(Values(SortDesc(items, Demand)))
    ensures forall i, j :: 0 <= i < j < |items| ==> Values(SortDesc(items, Demand))[i] >= Values(SortDesc(items, Demand))[j]
  {
    var ds := Values(SortDesc(items, Demand));
    SortDescSorted(items, Demand);
    forall i | 0 <= i < |ds| ensures 0.0 <= ds[i] {
      SortedValueFromInput(items, i);
    }
    assert forall i :: 0 <= i < |items| ==> ds[i] == Demand(SortDesc(items, Demand)[i]);
  }

  /** With non-negative totals whose sum is positive, the cumulative percentage lies in
      (0, 100] on every row, never decreases along the ranking and ends at 100, so every
      row gets a category. */
  lemma {:induction false} CumulativeShape(items: seq<Item>)
    requires NonNegative(Values(items)) && 0.0 < Sum(Values(items))
    ensures 0 < |items|
    ensures forall i :: 0 <= i < |items| ==>
      Analysis(items)[i].cumulative.Some? && 0.0 < Analysis(items)[i].cumulative.value <= 100.0
    ensures forall i, j :: 0 <= i <= j < |items| ==>
      Analysis(items)[i].cumulative.value <= Analysis(items)[j].cumulative.value
    ensures Analysis(items)[|items| - 1].cumulative == Some(100.0)
    ensures forall i :: 0 <= i < |items| ==> Analysis(items)[i].category.Some?
  {
    var ds := Values(SortDesc(items, Demand));
    SortSum(items);
    RankedValues(items);
    CumulativeBounds(ds);
    var a := Analysis(items);
    var cum := Cumsum(Shares(ds));
    forall i | 0 <= i < |items|
      ensures a[i].cumulative == Some(cum[i])
      ensures a[i].category.Some?
    {
      AnalysisAt(items, i);
    }
    forall i, j | 0 <= i <= j < |items|
      ensures a[i].cumulative.value <= a[j].cumulative.value
    {
      assert cum[i] <= cum[j];
    }
  }

  /** Under the same conditions the categories never go back along the ranking, so the A
      rows form a prefix of it. */
  lemma {:induction false} CategoriesMonotone(items: seq<Item>, i: nat, j: nat)
    requires NonNegative(Values(items)) && 0.0 < Sum(Values(items))
    requires i <= j < |items|
    ensures Analysis(items)[i].category.Some? && Analysis(items)[j].category.Some?
    ensures Rank(Analysis(items)[i].category.value) <= Rank(Analysis(items)[j].category.value)
    ensures Analysis(items)[j].category == Some(A) ==> Analysis(items)[i].category == Some(A)
  {
    CumulativeShape(items);
    SortSum(items);
    var r := Analysis(items);
    CutMonotone(r[i].cumulative.value, r[j].cumulative.value);
  }

  /** When the top row alone holds more than 80% of the total no row is in class A. */
  lemma {:induction false} NoClassAWhenTopExceeds80(items: seq<Item>)
    requires NonNegative(Values(items)) && 0.0 < Sum(Values(items))
    requires 0 < |items| && Analysis(items)[0].share.Some? && Analysis(items)[0].share.value > 80.0
    ensures forall i :: 0 <= i < |items| ==> Analysis(items)[i].category != Some(A)
  {
    CumulativeShape(items);
    SortSum(items);
    var pct := Shares(Values(SortDesc(items, Demand)));
    assert pct[..1] == [pct[0]];
    assert Sum(pct[..1]) == Sum([]) + pct[0];
    assert Analysis(items)[0].cumulative.value > 80.0;
  }

  // ---------------------------------------------------------------------------------------
  // data[data['Category'] == 'A']['article'].tolist()

  predicate IsA(r: AbcRow)
  {
    r.category == Some(A)
  }

  /** The keys of the class-A rows, in row order. */
  function ClassA(rows: seq<AbcRow>): (r: seq<string>)
    ensures |r| == CountWhere(rows, IsA)
  {
    if |rows| == 0 then []
    else ClassA(rows[..|rows| - 1]) + (if IsA(rows[|rows| - 1]) then [rows[|rows| - 1].article] else [])
  }

  function Articles(rows: seq<AbcRow>): (r: seq<string>)
    ensures |r| == |rows| && forall i :: 0 <= i < |rows| ==> r[i] == rows[i].article
  {
    seq(|rows|, i requires 0 <= i < |rows| => rows[i].article)
  }

  predicate APrefix(rows: seq<AbcRow>)
  {
    forall i, j :: 0 <= i <= j < |rows| && IsA(rows[j]) ==> IsA(rows[i])
  }

  /** When the class-A rows form a prefix, the filter returns exactly the keys of that
      prefix, in ranking order, and no later row is in class A. */
  lemma {:induction false} ClassAIsLeadingBlock(rows: seq<AbcRow>)
    requires APrefix(rows)
    ensures var k := CountWhere(rows, IsA);
      k <= |rows| &&
      ClassA(rows) == Articles(rows[..k]) &&
      (forall i :: 0 <= i < k ==> IsA(rows[i])) &&
      (forall i :: k <= i < |rows| ==> !IsA(rows[i]))
  {
    if |rows| > 0 {
      var init := rows[..|rows| - 1];
      var last := rows[|rows| - 1];
      assert APrefix(init);
      ClassAIsLeadingBlock(init);
      var k := CountWhere(init, IsA);
      assert init[..k] == rows[..k];
      if IsA(last) {
        assert forall i :: 0 <= i < |init| ==> IsA(init[i]);
        assert k == |init|;
        assert Articles(rows[..|rows|]) == Articles(init) + [last.article];
      }
    }
  }

  /** `save_class_a_products` on the result of `abc_analysis`: the keys of the leading
      class-A block of the ranking, in ranking order. */
  lemma {:induction false} ClassAOfAnalysis(items: seq<Item>)
    requires NonNegative(Values(items)) && 0.0 < Sum(Values(items))
    ensures var r := Analysis(items);
      var k := CountWhere(r, IsA);
      k <= |r| && ClassA(r) == Articles(r[..k]) &&
      (forall i :: 0 <= i < k ==> r[i].category == Some(A)) &&
      (forall i :: k <= i < |r| ==> r[i].category != Some(A))
  {
    var r := Analysis(items);
    forall i, j | 0 <= i <= j < |r| && IsA(r[j]) ensures IsA(r[i]) {
      CategoriesMonotone(items, i, j);
    }
    ClassAIsLeadingBlock(r);
  }
}
