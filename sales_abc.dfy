/** The ABC analysis of the products (`abc_analysis` and `save_class_a_products` in two
    scripts, and the variant in `save_class_a_products` of the time-series script): the
    measured demand of a sale is quantity × unit price, it is summed per article, and the
    totals go through the ABC classification. */
module SalesAbc {
  import opened Common
  import opened Abc
  import opened SalesCleaning

  /** A sale's measured demand as the per-article `sum` sees it: a missing demand (a missing
      quantity) is skipped, which adds nothing. */
  function DemandItem(s: Sale): (r: Item)
    ensures r.0 == s.article
    ensures s.quantity.Some? ==> r.1 == s.quantity.value * s.price
    ensures s.quantity.None? ==> r.1 == 0.0
  {
    match MeasuredDemand(s)
    case None => (s.article, 0.0)
    case Some(d) => (s.article, d)
  }

  function DemandItems(sales: seq<Sale>): (r: seq<Item>)
    ensures |r| == |sales| && forall i :: 0 <= i < |sales| ==> r[i] == DemandItem(sales[i])
  {
    seq(|sales|, i requires 0 <= i < |sales| => DemandItem(sales[i]))
  }

  /** `groupby(['article'])['MeasuredDemand'].sum()`: one entry per article sold, exactly
      the articles of the sales, each holding that article's total measured demand. */
  function ArticleDemand(sales: seq<Sale>): (r: seq<Item>)
    ensures Distinct(Keys(r))
    ensures forall k :: k in Keys(r) <==> exists i :: 0 <= i < |sales| && sales[i].article == k
    ensures forall i :: 0 <= i < |r| ==> r[i].1 == DemandOf(sales, r[i].0)
  {
    var items := DemandItems(sales);
    assert forall k :: k in Keys(items) <==> exists i :: 0 <= i < |sales| && sales[i].article == k by {
      forall k ensures k in Keys(items) <==> exists i :: 0 <= i < |sales| && sales[i].article == k {
        if k in Keys(items) {
          var i :| 0 <= i < |items| && Keys(items)[i] == k;
          assert sales[i].article == k;
        }
        if exists i :: 0 <= i < |sales| && sales[i].article == k {
          var i :| 0 <= i < |sales| && sales[i].article == k;
          assert Keys(items)[i] == k;
        }
      }
    }
    assert forall k :: SumFor(items, k) == DemandOf(sales, k) by {
      forall k ensures SumFor(items, k) == DemandOf(sales, k) {
        SumForDemandOf(sales, k);
      }
    }
    GroupSum(items)
  }

  /** `abc_analysis`. */
  function AbcAnalysis(sales: seq<Sale>): (r: seq<AbcRow>)
    ensures |r| == |ArticleDemand(sales)|
  {
    Analysis(ArticleDemand(sales))
  }

  /** The reference reading of an article's measured demand, one sale at a time. */
  function DemandOf(sales: seq<Sale>, article: string): real
  {
    if |sales| == 0 then 0.0
    else
      var s := sales[|sales| - 1];
      DemandOf(sales[..|sales| - 1], article) +
        (if s.article == article && s.quantity.Some? then s.quantity.value * s.price else 0.0)
  }

  lemma {:induction false} SumForDemandOf(sales: seq<Sale>, article: string)
    ensures SumFor(DemandItems(sales), article) == DemandOf(sales, article)
  {
    if |sales| > 0 {
      SumForDemandOf(sales[..|sales| - 1], article);
      assert DemandItems(sales)[..|sales| - 1] == DemandItems(sales[..|sales| - 1]);
    }
  }

  // ---------------------------------------------------------------------------------------
  // Keys survive the ranking

  lemma KeysCons(a: Item, xs: seq<Item>)
    ensures Keys([a] + xs) == [a.0] + Keys(xs)
  {
    assert Keys([a] + xs)[1..] == Keys(xs);
  }

  lemma {:induction false} InsertKeySet(x: Item, ys: seq<Item>)
    ensures forall k :: k in Keys(Insert(x, ys, Demand)) <==> k == x.0 || k in Keys(ys)
  {
    if |ys| > 0 {
      var y := ys[0];
      assert ys == [y] + ys[1..];
      KeysCons(y, ys[1..]);
      if Demand(y) >= Demand(x) {
        var rest := Insert(x, ys[1..], Demand);
        InsertKeySet(x, ys[1..]);
        assert Insert(x, ys, Demand) == [y] + rest;
        KeysCons(y, rest);
      } else {
        assert Insert(x, ys, Demand) == [x] + ys;
        KeysCons(x, ys);
      }
    }
  }

  lemma KeysDistinctCons(y: Item, rest: seq<Item>)
    requires Distinct(Keys(rest)) && y.0 !in Keys(rest)
    ensures Distinct(Keys([y] + rest))
  {
    KeysCons(y, rest);
    DistinctCons(y.0, Keys(rest));
  }

  lemma KeysDistinctTail(ys: seq<Item>)
    requires 0 < |ys| && Distinct(Keys(ys))
    ensures Distinct(Keys(ys[1..])) && ys[0].0 !in Keys(ys[1..])
  {
    var k := Keys(ys);
    assert forall i :: 0 <= i < |ys| - 1 ==> Keys(ys[1..])[i] == k[i + 1];
  }

  lemma {:induction false} InsertKeysDistinct(x: Item, ys: seq<Item>)
    requires Distinct(Keys(ys)) && x.0 !in Keys(ys)
    ensures Distinct(Keys(Insert(x, ys, Demand)))
  {
    if |ys| == 0 {
      assert Keys([x]) == [x.0];
    } else if Demand(ys[0]) >= Demand(x) {
      var y := ys[0];
      var rest := Insert(x, ys[1..], Demand);
      assert ys == [y] + ys[1..];
      KeysCons(y, ys[1..]);
      KeysDistinctTail(ys);
      InsertKeysDistinct(x, ys[1..]);
      InsertKeySet(x, ys[1..]);
      assert y.0 !in Keys(rest);
      KeysDistinctCons(y, rest);
    } else {
      KeysDistinctCons(x, ys);
    }
  }

  /** Ranking keeps the set of keys and keeps them distinct. */
  lemma {:induction false} SortKeys(xs: seq<Item>)
    ensures forall k :: k in Keys(SortDesc(xs, Demand)) <==> k in Keys(xs)
    ensures Distinct(Keys(xs)) ==> Distinct(Keys(SortDesc(xs, Demand)))
  {
    if |xs| > 0 {
      var init := xs[..|xs| - 1];
      var x := xs[|xs| - 1];
      SortKeys(init);
      InsertKeySet(x, SortDesc(init, Demand));
      assert Keys(xs) == Keys(init) + [x.0];
      if Distinct(Keys(xs)) {
        assert Keys(init) == Keys(xs)[..|xs| - 1];
        assert x.0 !in Keys(init);
        InsertKeysDistinct(x, SortDesc(init, Demand));
      }
    }
  }

  lemma ArticlesRanked(items: seq<Item>)
    ensures Articles(Analysis(items)) == Keys(SortDesc(items, Demand))
  {
    var r := Analysis(items);
    var ranked := SortDesc(items, Demand);
    AnalysisRanks(items);
    assert Map(r, RowItem) == ranked;
    assert forall i :: 0 <= i < |r| ==> Articles(r)[i] == RowItem(r[i]).0 == Keys(ranked)[i];
  }

  /** The articles along the ranking are the articles sold, each once. */
  lemma ArticlesOfAnalysis(sales: seq<Sale>)
    ensures Distinct(Articles(AbcAnalysis(sales)))
    ensures forall k :: k in Articles(AbcAnalysis(sales)) <==> k in Keys(DemandItems(sales))
  {
    var g := ArticleDemand(sales);
    SortKeys(g);
    ArticlesRanked(g);
  }

  /** Each row of the analysis holds, for its article, the sum of quantity × unit price
      over that article's sales (sales with a missing quantity add nothing), and the articles
      are the articles sold, each once. */
  lemma AbcAnalysisDemands(sales: seq<Sale>)
    ensures Distinct(Articles(AbcAnalysis(sales)))
    ensures forall k :: k in Articles(AbcAnalysis(sales)) <==> k in Keys(DemandItems(sales))
    ensures forall i :: 0 <= i < |AbcAnalysis(sales)| ==>
      AbcAnalysis(sales)[i].demand == DemandOf(sales, AbcAnalysis(sales)[i].article)
  {
    ArticlesOfAnalysis(sales);
    var g := ArticleDemand(sales);
    var r := AbcAnalysis(sales);
    AnalysisRanks(g);
    forall i | 0 <= i < |r| ensures r[i].demand == DemandOf(sales, r[i].article) {
      assert RowItem(r[i]) == SortDesc(g, Demand)[i];
      assert SortDesc(g, Demand)[i] in multiset(g);
      var j :| 0 <= j < |g| && g[j] == SortDesc(g, Demand)[i];
      SumForDemandOf(sales, r[i].article);
    }
  }

  // ---------------------------------------------------------------------------------------
  // Cleaned sales

  lemma {:induction false} SumForPositive(rows: seq<Item>, k: string)
    requires forall i :: 0 <= i < |rows| ==> 0.0 < rows[i].1
    ensures 0.0 <= SumFor(rows, k)
  {
    if |rows| > 0 {
      SumForPositive(rows[..|rows| - 1], k);
    }
  }

  lemma {:induction false} SumPositive(xs: seq<real>)
    requires 0 < |xs| && forall i :: 0 <= i < |xs| ==> 0.0 < xs[i]
    ensures 0.0 < Sum(xs)
  {
    SumNonNegative(xs[..|xs| - 1]);
  }

  /** With positive quantities and prices, as after `load_and_clean_data`, every article's
      demand is non-negative and the grand total is positive, so the classification has
      its full shape: ranked demands, a cumulative percentage ending at 100 and class-A
      articles forming the leading block of the ranking, which is what
      `save_class_a_products` returns. */
  lemma CleanSalesClassification(sales: seq<Sale>)
    requires 0 < |sales| && forall i :: 0 <= i < |sales| ==> Positive(sales[i])
    ensures NonNegative(Values(ArticleDemand(sales))) && 0.0 < Sum(Values(ArticleDemand(sales)))
    ensures 0 < |AbcAnalysis(sales)| && AbcAnalysis(sales)[|AbcAnalysis(sales)| - 1].cumulative == Some(100.0)
    ensures var r := AbcAnalysis(sales);
      var k := CountWhere(r, IsA);
      k <= |r| && ClassA(r) == Articles(r[..k]) &&
      (forall i :: k <= i < |r| ==> r[i].category != Some(A))
  {
    PositiveDemands(sales);
    PositiveShape(ArticleDemand(sales));
  }

  lemma PositiveShape(g: seq<Item>)
    requires NonNegative(Values(g)) && 0.0 < Sum(Values(g))
    ensures 0 < |Analysis(g)| && Analysis(g)[|Analysis(g)| - 1].cumulative == Some(100.0)
    ensures var r := Analysis(g);
      var k := CountWhere(r, IsA);
      k <= |r| && ClassA(r) == Articles(r[..k]) &&
      (forall i :: k <= i < |r| ==> r[i].category != Some(A))
  {
    CumulativeShape(g);
    ClassAOfAnalysis(g);
  }

  lemma PositiveDemands(sales: seq<Sale>)
    requires 0 < |sales| && forall i :: 0 <= i < |sales| ==> Positive(sales[i])
    ensures NonNegative(Values(ArticleDemand(sales))) && 0.0 < Sum(Values(ArticleDemand(sales)))
  {
    var items := DemandItems(sales);
    forall i | 0 <= i < |items| ensures 0.0 < items[i].1 {
      assert Positive(sales[i]);
      assert 0.0 < sales[i].quantity.value * sales[i].price;
    }
    GroupOfPositive(items);
  }

  /** Grouping positive amounts gives non-negative totals with a positive grand total. */
  lemma GroupOfPositive(items: seq<Item>)
    requires 0 < |items| && forall i :: 0 <= i < |items| ==> 0.0 < items[i].1
    ensures NonNegative(Values(GroupSum(items))) && 0.0 < Sum(Values(GroupSum(items)))
  {
    var g := GroupSum(items);
    forall i | 0 <= i < |g| ensures 0.0 <= Values(g)[i] {
      SumForPositive(items, g[i].0);
    }
    GroupSumTotal(items);
    SumPositive(Values(items));
  }

  // ---------------------------------------------------------------------------------------
  // save_class_a_products of the time-series script: the share is computed before the sort

  /** An article's total together with its share, computed before the ranking. */
  type SharedItem = (Item, real)

  function SharedDemand(p: SharedItem): real
  {
    p.0.1
  }

  function ShareOf(p: SharedItem): real
  {
    p.1
  }

  function WithShare(total: real): Item -> SharedItem
    requires total != 0.0
  {
    (x: Item) => (x, Percent(x.1, total))
  }

  /** The rows the time-series script builds from the per-article totals: shares of the
      unsorted totals, ranked together with their totals, accumulated along the ranking and
      binned. */
  function EarlyShareRows(g: seq<Item>): (r: seq<AbcRow>)
    requires Sum(Values(g)) != 0.0
    ensures |r| == |g|
  {
    var ranked := SortDesc(Map(g, WithShare(Sum(Values(g)))), SharedDemand);
    var cum := Cumsum(Map(ranked, ShareOf));
    seq(|ranked|, i requires 0 <= i < |ranked| =>
      AbcRow(ranked[i].0.0, ranked[i].0.1, Some(ranked[i].1), Some(cum[i]), Cut(cum[i])))
  }

  /** `save_class_a_products` of the time-series script: the class-A articles of those rows,
      de-duplicated with `unique`, so no article is listed twice. With a zero total every
      share is undefined and no article is in class A. */
  function TimeSeriesClassA(sales: seq<Sale>): (r: seq<string>)
    ensures Distinct(r)
  {
    var g := ArticleDemand(sales);
    if Sum(Values(g)) == 0.0 then [] else Unique(ClassA(EarlyShareRows(g)))
  }

  lemma {:induction false} ClassANone(rows: seq<AbcRow>)
    requires forall i :: 0 <= i < |rows| ==> !IsA(rows[i])
    ensures ClassA(rows) == []
  {
    if |rows| > 0 {
      ClassANone(rows[..|rows| - 1]);
    }
  }

  /** The class-A filter keeps articles of the rows, and keeps them distinct when they are. */
  lemma {:induction false} ClassADistinct(rows: seq<AbcRow>)
    ensures forall k :: k in ClassA(rows) ==> k in Articles(rows)
    ensures Distinct(Articles(rows)) ==> Distinct(ClassA(rows))
  {
    if |rows| > 0 {
      var init := rows[..|rows| - 1];
      var last := rows[|rows| - 1];
      ClassADistinct(init);
      assert Articles(init) == Articles(rows)[..|rows| - 1];
      assert Articles(rows) == Articles(init) + [last.article];
      if Distinct(Articles(rows)) {
        assert last.article !in Articles(init);
        assert last.article !in ClassA(init);
      }
    }
  }

  /** The shares attached to the items are the shares of their totals. */
  lemma SharesOfItems(items: seq<Item>, total: real)
    requires total != 0.0 && total == Sum(Values(items))
    ensures Map(Map(items, WithShare(total)), ShareOf) == Shares(Values(items))
  {
    var m := Map(Map(items, WithShare(total)), ShareOf);
    assert forall i :: 0 <= i < |m| ==> m[i] == Percent(items[i].1, total);
  }

  lemma SharesAfterRanking(g: seq<Item>)
    requires Sum(Values(g)) != 0.0
    ensures Sum(Values(SortDesc(g, Demand))) == Sum(Values(g))
    ensures SortDesc(Map(g, WithShare(Sum(Values(g)))), SharedDemand) == Map(SortDesc(g, Demand), WithShare(Sum(Values(g))))
    ensures Map(SortDesc(Map(g, WithShare(Sum(Values(g)))), SharedDemand), ShareOf) ==
      Shares(Values(SortDesc(g, Demand)))
  {
    var total := Sum(Values(g));
    var f := WithShare(total);
    SortSum(g);
    assert KeepsKey(Demand, f, SharedDemand);
    SortMap(g, Demand, f, SharedDemand);
    SharesOfItems(SortDesc(g, Demand), total);
  }

  /** Computing the shares before the ranking gives the same rows as ranking first. */
  lemma EarlySharesAreAnalysis(g: seq<Item>)
    requires Sum(Values(g)) != 0.0
    ensures EarlyShareRows(g) == Analysis(g)
  {
    var f := WithShare(Sum(Values(g)));
    var ranked := SortDesc(Map(g, f), SharedDemand);
    SharesAfterRanking(g);
    var pct := Map(ranked, ShareOf);
    var cum := Cumsum(pct);
    var rows := EarlyShareRows(g);
    var r := Analysis(g);
    forall i | 0 <= i < |r| ensures rows[i] == r[i] {
      AnalysisAt(g, i);
      assert ranked[i] == f(SortDesc(g, Demand)[i]);
      assert ranked[i].1 == pct[i];
    }
  }

  /** Computing the shares before the ranking, as the time-series script does, selects the
      same class-A articles in the same order as `abc_analysis` followed by
      `save_class_a_products`; `unique` changes nothing because each article has one row. */
  lemma TimeSeriesClassAIsClassA(sales: seq<Sale>)
    ensures TimeSeriesClassA(sales) == ClassA(AbcAnalysis(sales))
  {
    var g := ArticleDemand(sales);
    var r := AbcAnalysis(sales);
    if Sum(Values(g)) == 0.0 {
      ZeroTotalLeavesRowsUnclassified(g);
      ClassANone(r);
    } else {
      EarlySharesAreAnalysis(g);
      ArticlesOfAnalysis(sales);
      ClassADistinct(r);
      UniqueOfDistinct(ClassA(r));
    }
  }
}
