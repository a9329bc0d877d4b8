/** The ingredient side of the ABC analysis: the ingredients a set of sales requires
    (`calculate_total_ingredients`) and the ABC classification of the ingredient totals
    (`abc_analysis_ingredients`), both written the same way in two scripts. */
module IngredientAbc {
  import opened Common
  import opened Abc

  /** One row of a numeric table: its label and one amount per column. For the recipe
      table the label is a product and the amounts are per ingredient column. */
  type Row = (string, seq<real>)

  /** Every row has an amount in column `j`. */
  predicate HasColumn(rows: seq<Row>, j: nat)
  {
    forall i :: 0 <= i < |rows| ==> j < |rows[i].1|
  }

  // ---------------------------------------------------------------------------------------
  // abc_analysis_ingredients

  /** `data.sum(axis=1)`: each row's label with the sum of its amounts. */
  function RowTotals(rows: seq<Row>): (r: seq<Item>)
    ensures |r| == |rows| && forall i :: 0 <= i < |rows| ==> r[i] == (rows[i].0, Sum(rows[i].1))
  {
    seq(|rows|, i requires 0 <= i < |rows| => (rows[i].0, Sum(rows[i].1)))
  }

  /** One row of the ingredient ABC result: the ingredient, its total, the cumulative
      percentage and the category. The percentage is missing when the grand total is zero. */
  datatype IngredientAbcRow = IngredientAbcRow(ingredient: string, total: real,
                                               cumulative: Option<real>, category: Option<Category>)

  /** Sort the totals in descending order, divide the running total by the grand total and
      multiply by 100, then bin with `pd.cut`. */
  function IngredientAnalysis(rows: seq<Row>): (r: seq<IngredientAbcRow>)
    ensures |r| == |rows|
  {
    var ranked := SortDesc(RowTotals(rows), Demand);
    var ds := Values(ranked);
    var totalSum := Sum(ds);
    if totalSum == 0.0 then
      seq(|ranked|, i requires 0 <= i < |ranked| => IngredientAbcRow(ranked[i].0, ranked[i].1, None, None))
    else
      var cum := Cumsum(ds);
      seq(|ranked|, i requires 0 <= i < |ranked| =>
        IngredientAbcRow(ranked[i].0, ranked[i].1, Some(cum[i] / totalSum * 100.0), Cut(cum[i] / totalSum * 100.0)))
  }

  /** The ingredient analysis computes the same ranking, cumulative percentage and category
      as the product analysis on the row totals: `cumsum(T) / total * 100` equals the running
      sum of the shares `T * 100 / total`. */
  lemma {:induction false} IngredientAnalysisIsAnalysis(rows: seq<Row>, i: nat)
    requires i < |rows|
    ensures IngredientAnalysis(rows)[i].ingredient == Analysis(RowTotals(rows))[i].article
    ensures IngredientAnalysis(rows)[i].total == Analysis(RowTotals(rows))[i].demand
    ensures IngredientAnalysis(rows)[i].cumulative == Analysis(RowTotals(rows))[i].cumulative
    ensures IngredientAnalysis(rows)[i].category == Analysis(RowTotals(rows))[i].category
  {
    var items := RowTotals(rows);
    var ds := Values(SortDesc(items, Demand));
    AnalysisAt(items, i);
    if Sum(ds) != 0.0 {
      SharesThenCumsum(ds, i);
    }
  }

  /** The ingredients are ranked in non-increasing order of their totals. */
  lemma IngredientRanking(rows: seq<Row>, i: nat, j: nat)
    requires i <= j < |rows|
    ensures IngredientAnalysis(rows)[i].total >= IngredientAnalysis(rows)[j].total
  {
    IngredientAnalysisIsAnalysis(rows, i);
    IngredientAnalysisIsAnalysis(rows, j);
    AnalysisRanksAt(RowTotals(rows), i, j);
  }

  /** With non-negative totals whose sum is positive the cumulative percentage lies in
      (0, 100], never decreases along the ranking and ends at 100. */
  lemma IngredientCumulativeShape(rows: seq<Row>, i: nat, j: nat)
    requires NonNegative(Values(RowTotals(rows))) && 0.0 < Sum(Values(RowTotals(rows)))
    requires i <= j < |rows|
    ensures IngredientAnalysis(rows)[i].cumulative.Some? && IngredientAnalysis(rows)[j].cumulative.Some?
    ensures 0.0 < IngredientAnalysis(rows)[i].cumulative.value <= IngredientAnalysis(rows)[j].cumulative.value <= 100.0
    ensures IngredientAnalysis(rows)[|rows| - 1].cumulative == Some(100.0)
  {
    IngredientAnalysisIsAnalysis(rows, i);
    IngredientAnalysisIsAnalysis(rows, j);
    IngredientAnalysisIsAnalysis(rows, |rows| - 1);
    CumulativeShape(RowTotals(rows));
  }

  /** Under the same conditions every ingredient gets a category and the categories never
      go back along the ranking, so the class-A ingredients lead it. */
  lemma IngredientCategoriesMonotone(rows: seq<Row>, i: nat, j: nat)
    requires NonNegative(Values(RowTotals(rows))) && 0.0 < Sum(Values(RowTotals(rows)))
    requires i <= j < |rows|
    ensures IngredientAnalysis(rows)[i].category.Some? && IngredientAnalysis(rows)[j].category.Some?
    ensures Rank(IngredientAnalysis(rows)[i].category.value) <= Rank(IngredientAnalysis(rows)[j].category.value)
    ensures IngredientAnalysis(rows)[j].category == Some(A) ==> IngredientAnalysis(rows)[i].category == Some(A)
  {
    IngredientAnalysisIsAnalysis(rows, i);
    IngredientAnalysisIsAnalysis(rows, j);
    CategoriesMonotone(RowTotals(rows), i, j);
  }

  // ---------------------------------------------------------------------------------------
  // calculate_total_ingredients

  /** The first value stored under key `k`. */
  function Lookup(groups: seq<Item>, k: string): (r: Option<real>)
    ensures r.Some? <==> k in Keys(groups)
  {
    if |groups| == 0 then None
    else if groups[0].0 == k then Some(groups[0].1)
    else
      assert Keys(groups)[1..] == Keys(groups[1..]);
      Lookup(groups[1..], k)
  }

  /** When every entry with key `k` holds `v`, looking `k` up finds `v`. */
  lemma {:induction false} LookupUniform(groups: seq<Item>, k: string, v: real)
    requires forall i :: 0 <= i < |groups| && groups[i].0 == k ==> groups[i].1 == v
    ensures k in Keys(groups) ==> Lookup(groups, k) == Some(v)
  {
    if |groups| > 0 && groups[0].0 != k {
      assert Keys(groups)[1..] == Keys(groups[1..]);
      LookupUniform(groups[1..], k, v);
    }
  }

  /** Looking a key up in `groupby(key).sum()` finds the total of that key's rows, and finds
      nothing for a key no row has. */
  lemma LookupGroupSum(rows: seq<Item>, k: string)
    ensures Lookup(GroupSum(rows), k) == if k in Keys(rows) then Some(SumFor(rows, k)) else None
  {
    LookupUniform(GroupSum(rows), k, SumFor(rows, k));
  }

  /** The total stored for `k`, where a missing total counts as zero: after aligning the
      per-product totals with the recipe rows a product without sales holds NaN, its
      products with the amounts are NaN, and `sum` skips them. */
  function TotalOf(totals: seq<Item>, k: string): real
  {
    match Lookup(totals, k)
    case None => 0.0
    case Some(q) => q
  }

  /** `filtered.groupby('article')['Quantity'].sum()` aligned with the recipe rows, multiplied
      into column `j` and summed; products that did not sell add nothing. */
  function Weighted(recipes: seq<Row>, totals: seq<Item>, j: nat): (r: real)
    requires HasColumn(recipes, j)
    ensures (forall i :: 0 <= i < |recipes| ==> TotalOf(totals, recipes[i].0) == 0.0) ==> r == 0.0
  {
    if |recipes| == 0 then 0.0
    else
      var p := recipes[|recipes| - 1];
      Weighted(recipes[..|recipes| - 1], totals, j) + Scaled(TotalOf(totals, p.0), p, j)
  }

  /** A quantity of a product times the recipe row's amount in column `j`. */
  function Scaled(quantity: real, p: Row, j: nat): real
    requires j < |p.1|
  {
    quantity * p.1[j]
  }

  /** The sales whose article is one of the recipe products (`isin`): a subsequence of the
      sales that keeps every sale of a recipe product and no other. */
  function InRecipes(sales: seq<Item>, recipes: seq<Row>): (r: seq<Item>)
    ensures IsSubsequence(r, sales)
    ensures forall i :: 0 <= i < |r| ==> r[i].0 in Keys(recipes)
    ensures forall i :: 0 <= i < |sales| && sales[i].0 in Keys(recipes) ==> sales[i] in r
  {
    FilterIsSubsequence(sales, (s: Item) => s.0 in Keys(recipes));
    Filter(sales, (s: Item) => s.0 in Keys(recipes))
  }

  /** `calculate_total_ingredients`: for each of the `m` ingredient columns, the amounts of
      the recipe rows weighted by the total quantity sold of their product. */
  function TotalIngredients(sales: seq<Item>, recipes: seq<Row>, m: nat): (r: seq<real>)
    requires forall j :: 0 <= j < m ==> HasColumn(recipes, j)
    ensures |r| == m
  {
    var totalSales := GroupSum(InRecipes(sales, recipes));
    seq(m, j requires 0 <= j < m => Weighted(recipes, totalSales, j))
  }

  /** The reference definition: each recipe row's amount in column `j`, times the quantity
      sold of its product (zero when it did not sell). */
  function Required(recipes: seq<Row>, sales: seq<Item>, j: nat): real
    requires HasColumn(recipes, j)
  {
    if |recipes| == 0 then 0.0
    else
      var p := recipes[|recipes| - 1];
      Required(recipes[..|recipes| - 1], sales, j) + Scaled(SumFor(sales, p.0), p, j)
  }

  /** Keeping the rows of some keys keeps the total of each of those keys. */
  lemma {:induction false} SumForFilter(rows: seq<Item>, keep: Item -> bool, k: string)
    requires forall x: Item :: x.0 == k ==> keep(x)
    ensures SumFor(Filter(rows, keep), k) == SumFor(rows, k)
  {
    if |rows| > 0 {
      var init := rows[..|rows| - 1];
      var x := rows[|rows| - 1];
      SumForFilter(init, keep, k);
      if keep(x) {
        SumForSnoc(Filter(init, keep), x, k);
      }
    }
  }

  /** One more row adds its value to its own key's total and nothing to any other. */
  lemma SumForSnoc(rows: seq<Item>, x: Item, k: string)
    ensures SumFor(rows + [x], k) == SumFor(rows, k) + (if x.0 == k then x.1 else 0.0)
  {
    assert (rows + [x])[..|rows|] == rows;
  }

  /** After filtering to the recipe products and grouping, each recipe product's total is
      the quantity sold of it, and zero when it did not sell. */
  lemma TotalOfProduct(sales: seq<Item>, recipes: seq<Row>, k: string)
    requires k in Keys(recipes)
    ensures TotalOf(GroupSum(InRecipes(sales, recipes)), k) == SumFor(sales, k)
  {
    var f := InRecipes(sales, recipes);
    SumForFilter(sales, (s: Item) => s.0 in Keys(recipes), k);
    TotalOfGroupSum(f, k);
  }

  /** Grouping the rows and looking a key up yields the key's total, zero for a key without
      rows. */
  lemma TotalOfGroupSum(rows: seq<Item>, k: string)
    ensures TotalOf(GroupSum(rows), k) == SumFor(rows, k)
  {
    LookupGroupSum(rows, k);
    if k !in Keys(rows) {
      SumForMissing(rows, k);
    }
  }

  lemma {:induction false} WeightedIsRequired(sales: seq<Item>, recipes: seq<Row>, n: nat, j: nat)
    requires HasColumn(recipes, j) && n <= |recipes|
    ensures HasColumn(recipes[..n], j)
    ensures Weighted(recipes[..n], GroupSum(InRecipes(sales, recipes)), j) == Required(recipes[..n], sales, j)
  {
    if n > 0 {
      var totals := GroupSum(InRecipes(sales, recipes));
      var pre := recipes[..n];
      var init := recipes[..n - 1];
      var p := recipes[n - 1];
      WeightedIsRequired(sales, recipes, n - 1, j);
      assert pre[..|pre| - 1] == init && pre[|pre| - 1] == p;
      assert p.0 in Keys(recipes);
      TotalOfProduct(sales, recipes, p.0);
    }
  }

  /** The ingredient totals are, column by column, the recipe amounts weighted by the
      quantity sold of each product: filtering the sales to the recipe products, summing per
      product and skipping unsold products change nothing in that sum. */
  lemma TotalIngredientsIsRequired(sales: seq<Item>, recipes: seq<Row>, m: nat)
    requires forall j :: 0 <= j < m ==> HasColumn(recipes, j)
    ensures forall j :: 0 <= j < m ==> TotalIngredients(sales, recipes, m)[j] == Required(recipes, sales, j)
  {
    forall j | 0 <= j < m ensures TotalIngredients(sales, recipes, m)[j] == Required(recipes, sales, j) {
      WeightedIsRequired(sales, recipes, |recipes|, j);
      assert recipes[..|recipes|] == recipes;
    }
  }

  /** The amount in column `j` of the rows labelled `k` (zero when there is none). */
  function RecipeAmount(recipes: seq<Row>, k: string, j: nat): real
    requires HasColumn(recipes, j)
  {
    if |recipes| == 0 then 0.0
    else
      var p := recipes[|recipes| - 1];
      RecipeAmount(recipes[..|recipes| - 1], k, j) + (if p.0 == k then p.1[j] else 0.0)
  }

  /** One more sale of product `x.0` adds its quantity times row `p`'s amount when `p` is
      that product's row, and nothing otherwise. */
  lemma ScaledSnoc(s: real, p: Row, x: Item, j: nat)
    requires j < |p.1|
    ensures Scaled(s + (if x.0 == p.0 then x.1 else 0.0), p, j) ==
      Scaled(s, p, j) + x.1 * (if p.0 == x.0 then p.1[j] else 0.0)
  {
    if x.0 == p.0 {
      assert (s + x.1) * p.1[j] == s * p.1[j] + x.1 * p.1[j];
    }
  }

  /** One more sale changes row `p`'s term by the sale's quantity times the row's amount
      when the sale is of that row's product, and not otherwise. */
  lemma RowTermSnoc(sales: seq<Item>, x: Item, p: Row, j: nat)
    requires j < |p.1|
    ensures Scaled(SumFor(sales + [x], p.0), p, j) ==
      Scaled(SumFor(sales, p.0), p, j) + x.1 * (if p.0 == x.0 then p.1[j] else 0.0)
  {
    assert (sales + [x])[..|sales|] == sales;
    ScaledSnoc(SumFor(sales, p.0), p, x, j);
  }

  /** What one sale adds to column `j`, row by row: its quantity times the amount of each
      row of its product. */
  function SaleAmount(recipes: seq<Row>, x: Item, j: nat): real
    requires HasColumn(recipes, j)
  {
    if |recipes| == 0 then 0.0
    else
      var p := recipes[|recipes| - 1];
      SaleAmount(recipes[..|recipes| - 1], x, j) + x.1 * (if p.0 == x.0 then p.1[j] else 0.0)
  }

  /** Row by row, a sale adds its quantity times its product's total amount. */
  lemma {:induction false} SaleAmountIsProduct(recipes: seq<Row>, x: Item, j: nat)
    requires HasColumn(recipes, j)
    ensures SaleAmount(recipes, x, j) == x.1 * RecipeAmount(recipes, x.0, j)
  {
    if |recipes| > 0 {
      var p := recipes[|recipes| - 1];
      var init := recipes[..|recipes| - 1];
      SaleAmountIsProduct(init, x, j);
      var b := if p.0 == x.0 then p.1[j] else 0.0;
      assert x.1 * (RecipeAmount(init, x.0, j) + b) == x.1 * RecipeAmount(init, x.0, j) + x.1 * b;
    }
  }

  lemma {:induction false} RequiredSnocRows(recipes: seq<Row>, sales: seq<Item>, x: Item, j: nat)
    requires HasColumn(recipes, j)
    ensures Required(recipes, sales + [x], j) == Required(recipes, sales, j) + SaleAmount(recipes, x, j)
  {
    if |recipes| > 0 {
      var init := recipes[..|recipes| - 1];
      var p := recipes[|recipes| - 1];
      RequiredSnocRows(init, sales, x, j);
      RowTermSnoc(sales, x, p, j);
      assert Required(recipes, sales + [x], j) == Required(init, sales + [x], j) + Scaled(SumFor(sales + [x], p.0), p, j);
      assert Required(recipes, sales, j) == Required(init, sales, j) + Scaled(SumFor(sales, p.0), p, j);
      assert SaleAmount(recipes, x, j) == SaleAmount(init, x, j) + x.1 * (if p.0 == x.0 then p.1[j] else 0.0);
    }
  }

  /** One more sale adds its quantity times its product's amount to column `j`. */
  lemma RequiredSnoc(recipes: seq<Row>, sales: seq<Item>, x: Item, j: nat)
    requires HasColumn(recipes, j)
    ensures Required(recipes, sales + [x], j) == Required(recipes, sales, j) + x.1 * RecipeAmount(recipes, x.0, j)
  {
    RequiredSnocRows(recipes, sales, x, j);
    SaleAmountIsProduct(recipes, x, j);
  }

  /** The per-sale reading: each sale adds its quantity times its product's amount, and a
      sale of a product outside the recipe table adds nothing. */
  function PerSale(recipes: seq<Row>, sales: seq<Item>, j: nat): real
    requires HasColumn(recipes, j)
  {
    if |sales| == 0 then 0.0
    else
      var s := sales[|sales| - 1];
      PerSale(recipes, sales[..|sales| - 1], j) + s.1 * RecipeAmount(recipes, s.0, j)
  }

  lemma {:induction false} RecipeAmountMissing(recipes: seq<Row>, k: string, j: nat)
    requires HasColumn(recipes, j) && k !in Keys(recipes)
    ensures RecipeAmount(recipes, k, j) == 0.0
  {
    if |recipes| > 0 {
      assert Keys(recipes[..|recipes| - 1]) == Keys(recipes)[..|recipes| - 1];
      RecipeAmountMissing(recipes[..|recipes| - 1], k, j);
    }
  }

  lemma {:induction false} RequiredIsPerSale(recipes: seq<Row>, sales: seq<Item>, j: nat)
    requires HasColumn(recipes, j)
    ensures Required(recipes, sales, j) == PerSale(recipes, sales, j)
  {
    if |sales| == 0 {
      RequiredNoSales(recipes, j);
    } else {
      var init := sales[..|sales| - 1];
      RequiredIsPerSale(recipes, init, j);
      RequiredSnoc(recipes, init, sales[|sales| - 1], j);
      assert init + [sales[|sales| - 1]] == sales;
    }
  }

  lemma {:induction false} RequiredNoSales(recipes: seq<Row>, j: nat)
    requires HasColumn(recipes, j)
    ensures Required(recipes, [], j) == 0.0
  {
    if |recipes| > 0 {
      RequiredNoSales(recipes[..|recipes| - 1], j);
    }
  }

  /** Each ingredient total is the sum over the sales of quantity × recipe amount, and a sale
      of an article outside the recipe table leaves every total unchanged. */
  lemma TotalIngredientsPerSale(sales: seq<Item>, recipes: seq<Row>, m: nat, x: Item)
    requires forall j :: 0 <= j < m ==> HasColumn(recipes, j)
    ensures forall j :: 0 <= j < m ==> TotalIngredients(sales, recipes, m)[j] == PerSale(recipes, sales, j)
    ensures x.0 !in Keys(recipes) ==> TotalIngredients(sales + [x], recipes, m) == TotalIngredients(sales, recipes, m)
  {
    TotalIngredientsIsRequired(sales, recipes, m);
    TotalIngredientsIsRequired(sales + [x], recipes, m);
    forall j | 0 <= j < m
      ensures TotalIngredients(sales, recipes, m)[j] == PerSale(recipes, sales, j)
      ensures x.0 !in Keys(recipes) ==> TotalIngredients(sales + [x], recipes, m)[j] == TotalIngredients(sales, recipes, m)[j]
    {
      RequiredIsPerSale(recipes, sales, j);
      RequiredSnoc(recipes, sales, x, j);
      if x.0 !in Keys(recipes) {
        RecipeAmountMissing(recipes, x.0, j);
      }
    }
  }
}
