/** `generate_weekly_ingredient_series`: a table with one row per sales week and one column
    per selected ingredient, zero at the start, to which every recipe product adds, week by
    week, the quantity it sold that week times its recipe row. */
module WeeklySeries {
  import opened Common
  import SC = SalesCleaning
  import IA = IngredientAbc
  import Abc

  /** The first position of `x` in `xs` (`.loc` by label, `.index` by name). */
  function Position<T(==)>(xs: seq<T>, x: T): (r: nat)
    requires x in xs
    ensures r < |xs| && xs[r] == x
    ensures forall i :: 0 <= i < r ==> xs[i] != x
  {
    if xs[0] == x then 0 else 1 + Position(xs[1..], x)
  }

  // ---------------------------------------------------------------------------------------
  // Selecting the ingredient columns

  /** The first selected name that is not a column of the table, if any. */
  function MissingColumn(header: seq<string>, selected: seq<string>): (r: Option<string>)
    ensures r.None? <==> forall c :: 0 <= c < |selected| ==> selected[c] in header
    ensures r.Some? ==> r.value in selected && r.value !in header
  {
    if |selected| == 0 then None
    else if selected[0] !in header then Some(selected[0])
    else
      var rest := MissingColumn(header, selected[1..]);
      assert forall c :: 1 <= c < |selected| ==> selected[c] == selected[1..][c - 1];
      rest
  }

  /** `ingredient_data[selected_ingredients]`: a selected name that is not a column raises a
      key error; otherwise every recipe row keeps its label and, in the order of the
      selection, the amounts of the selected columns. */
  function SelectIngredients(header: seq<string>, recipes: seq<IA.Row>, selected: seq<string>): (r: Result<seq<IA.Row>>)
    requires forall i :: 0 <= i < |recipes| ==> |recipes[i].1| == |header|
    ensures r.Err? <==> exists c :: 0 <= c < |selected| && selected[c] !in header
    ensures r.Err? ==> r.error.KeyError? && r.error.key in selected && r.error.key !in header
    ensures r.Ok? ==> |r.value| == |recipes| && forall i :: 0 <= i < |recipes| ==>
      r.value[i].0 == recipes[i].0 && |r.value[i].1| == |selected|
    ensures r.Ok? ==> forall i, c :: 0 <= i < |recipes| && 0 <= c < |selected| ==>
      r.value[i].1[c] == recipes[i].1[Position(header, selected[c])]
  {
    match MissingColumn(header, selected)
    case Some(name) => Err(KeyError(name))
    case None =>
      Ok(seq(|recipes|, i requires 0 <= i < |recipes| =>
        (recipes[i].0, seq(|selected|, c requires 0 <= c < |selected| => recipes[i].1[Position(header, selected[c])]))))
  }

  // ---------------------------------------------------------------------------------------
  // Weeks, quantities and recipe rows

  /** The week of every sale, in order; `weekOf` maps a date to the start of its week. */
  function WeekColumn(sales: seq<SC.Sale>, weekOf: string -> string): (r: seq<string>)
    ensures |r| == |sales| && forall j :: 0 <= j < |sales| ==> r[j] == weekOf(sales[j].date)
  {
    seq(|sales|, j requires 0 <= j < |sales| => weekOf(sales[j].date))
  }

  /** The sold article of every sale, in order. */
  function ArticleColumn(sales: seq<SC.Sale>): (r: seq<string>)
    ensures |r| == |sales| && forall j :: 0 <= j < |sales| ==> r[j] == sales[j].article
  {
    seq(|sales|, j requires 0 <= j < |sales| => sales[j].article)
  }

  /** The keys of `sales_data.groupby('article')`: every sold article, once each. */
  function SoldProducts(sales: seq<SC.Sale>): (r: seq<string>)
    ensures forall j :: 0 <= j < |sales| ==> sales[j].article in r
    ensures forall k :: 0 <= k < |r| ==> r[k] in ArticleColumn(sales)
    ensures Distinct(r)
  {
    var column := ArticleColumn(sales);
    assert forall j :: 0 <= j < |sales| ==> column[j] == sales[j].article;
    Unique(column)
  }

  /** `sales_data['week'].unique()`, the rows of the table: each sale's week is one of them,
      each of them is the week of a sale, and no week appears twice. */
  function Weeks(sales: seq<SC.Sale>, weekOf: string -> string): (r: seq<string>)
    ensures forall j :: 0 <= j < |sales| ==> weekOf(sales[j].date) in r
    ensures forall k :: 0 <= k < |r| ==> r[k] in WeekColumn(sales, weekOf)
    ensures Distinct(r)
  {
    var column := WeekColumn(sales, weekOf);
    assert forall j :: 0 <= j < |sales| ==> column[j] == weekOf(sales[j].date);
    Unique(column)
  }

  /** The weeks in which article `a` sold, in order of the sales (with repetitions). */
  function WeeksOfArticle(sales: seq<SC.Sale>, a: string, weekOf: string -> string): (r: seq<string>)
    ensures forall j :: 0 <= j < |sales| && sales[j].article == a ==> weekOf(sales[j].date) in r
    ensures forall k :: 0 <= k < |r| ==> r[k] in WeekColumn(sales, weekOf)
  {
    if |sales| == 0 then []
    else
      var init := sales[..|sales| - 1];
      var last := sales[|sales| - 1];
      var rest := WeeksOfArticle(init, a, weekOf);
      assert WeekColumn(sales, weekOf)[..|init|] == WeekColumn(init, weekOf);
      assert forall j :: 0 <= j < |init| ==> init[j] == sales[j];
      if last.article == a then rest + [weekOf(last.date)] else rest
  }

  /** `group.groupby('week')` for the sales of article `a`: the weeks in which it sold, once
      each. */
  function ProductWeeks(sales: seq<SC.Sale>, a: string, weekOf: string -> string): (r: seq<string>)
    ensures forall j :: 0 <= j < |sales| && sales[j].article == a ==> weekOf(sales[j].date) in r
    ensures forall k :: 0 <= k < |r| ==> r[k] in Weeks(sales, weekOf)
    ensures Distinct(r)
  {
    var weeks := WeeksOfArticle(sales, a, weekOf);
    assert forall k :: 0 <= k < |weeks| ==> weeks[k] in Weeks(sales, weekOf);
    Unique(weeks)
  }

  /** The quantity a sale adds to a sum: `sum` skips a missing (NaN) quantity. */
  function Counted(s: SC.Sale): real
  {
    if s.quantity.Some? then s.quantity.value else 0.0
  }

  /** `week_data['Quantity'].sum()`: the quantity of article `a` sold in week `w`, never
      negative when no sale has a negative quantity. */
  function WeekQuantity(sales: seq<SC.Sale>, a: string, w: string, weekOf: string -> string): (r: real)
    ensures (forall i :: 0 <= i < |sales| ==> 0.0 <= Counted(sales[i])) ==> 0.0 <= r
  {
    if |sales| == 0 then 0.0
    else
      var last := sales[|sales| - 1];
      WeekQuantity(sales[..|sales| - 1], a, w, weekOf) +
        (if last.article == a && weekOf(last.date) == w then Counted(last) else 0.0)
  }

  /** No sale of `a` in week `w` means no quantity of `a` in that week. */
  lemma {:induction false} QuantityOutsideWeeks(sales: seq<SC.Sale>, a: string, w: string, weekOf: string -> string)
    requires w !in WeeksOfArticle(sales, a, weekOf)
    ensures WeekQuantity(sales, a, w, weekOf) == 0.0
  {
    if |sales| > 0 {
      var init := sales[..|sales| - 1];
      var rest := WeeksOfArticle(init, a, weekOf);
      assert forall k :: 0 <= k < |rest| ==> rest[k] in WeeksOfArticle(sales, a, weekOf);
      QuantityOutsideWeeks(init, a, w, weekOf);
    }
  }

  /** `ingredient_data.loc[product]`: the amounts of the first recipe row labelled `a`. */
  function RecipeRow(recipes: seq<IA.Row>, a: string): (r: seq<real>)
    requires a in Abc.Keys(recipes)
    ensures exists i :: 0 <= i < |recipes| && recipes[i] == (a, r)
  {
    var i := Position(Abc.Keys(recipes), a);
    recipes[i].1
  }

  /** A quantity times the amount in column `c`. */
  function Times(q: real, amounts: seq<real>, c: nat): real
    requires c < |amounts|
  {
    q * amounts[c]
  }

  lemma TimesAdd(q: real, d: real, amounts: seq<real>, c: nat)
    requires c < |amounts|
    ensures Times(q + d, amounts, c) == Times(q, amounts, c) + Times(d, amounts, c)
  {
    assert (q + d) * amounts[c] == q * amounts[c] + d * amounts[c];
  }

  // ---------------------------------------------------------------------------------------
  // The two readings of a cell

  /** What product `a` adds to cell (`w`, `c`): its quantity that week times its amount,
      and nothing when it has no recipe row. */
  function Contribution(sales: seq<SC.Sale>, recipes: seq<IA.Row>, a: string, w: string, c: nat, weekOf: string -> string): real
    requires IA.HasColumn(recipes, c)
  {
    if a in Abc.Keys(recipes) then Times(WeekQuantity(sales, a, w, weekOf), RecipeRow(recipes, a), c) else 0.0
  }

  /** Cell (`w`, `c`) after the outer loop has visited the products of `products`. */
  function Accumulated(sales: seq<SC.Sale>, recipes: seq<IA.Row>, products: seq<string>, w: string, c: nat, weekOf: string -> string): real
    requires IA.HasColumn(recipes, c)
  {
    if |products| == 0 then 0.0
    else
      Accumulated(sales, recipes, products[..|products| - 1], w, c, weekOf) +
        Contribution(sales, recipes, products[|products| - 1], w, c, weekOf)
  }

  /** What one sale uses of ingredient `c`: its quantity times its product's amount, and
      nothing when its product has no recipe row. */
  function SaleUse(recipes: seq<IA.Row>, s: SC.Sale, c: nat): real
    requires IA.HasColumn(recipes, c)
  {
    if s.article in Abc.Keys(recipes) then Times(Counted(s), RecipeRow(recipes, s.article), c) else 0.0
  }

  /** The reference definition, one sale at a time: cell (`w`, `c`) is the sum of what the
      sales of week `w` use of ingredient `c`. */
  function Expected(sales: seq<SC.Sale>, recipes: seq<IA.Row>, w: string, c: nat, weekOf: string -> string): real
    requires IA.HasColumn(recipes, c)
  {
    if |sales| == 0 then 0.0
    else
      var last := sales[|sales| - 1];
      Expected(sales[..|sales| - 1], recipes, w, c, weekOf) +
        (if weekOf(last.date) == w then SaleUse(recipes, last, c) else 0.0)
  }

  /** One more sale changes what product `a` adds by what that sale uses, when the sale is of
      `a` and in week `w`. */
  lemma ContributionSnoc(sales: seq<SC.Sale>, x: SC.Sale, recipes: seq<IA.Row>, a: string, w: string, c: nat, weekOf: string -> string)
    requires IA.HasColumn(recipes, c)
    ensures Contribution(sales + [x], recipes, a, w, c, weekOf) ==
      Contribution(sales, recipes, a, w, c, weekOf) +
        (if x.article == a && weekOf(x.date) == w then SaleUse(recipes, x, c) else 0.0)
  {
    assert (sales + [x])[..|sales|] == sales;
    if a in Abc.Keys(recipes) {
      var amounts := RecipeRow(recipes, a);
      var d := if x.article == a && weekOf(x.date) == w then Counted(x) else 0.0;
      TimesAdd(WeekQuantity(sales, a, w, weekOf), d, amounts, c);
    }
  }

  /** One more sale changes the whole accumulation by what that sale uses, when its product
      is visited (once, as the products are distinct) and the sale is in week `w`. */
  lemma {:induction false} AccumulatedSnocSale(sales: seq<SC.Sale>, x: SC.Sale, recipes: seq<IA.Row>, products: seq<string>, w: string, c: nat, weekOf: string -> string)
    requires IA.HasColumn(recipes, c) && Distinct(products)
    ensures Accumulated(sales + [x], recipes, products, w, c, weekOf) ==
      Accumulated(sales, recipes, products, w, c, weekOf) +
        (if x.article in products && weekOf(x.date) == w then SaleUse(recipes, x, c) else 0.0)
  {
    if |products| > 0 {
      var init := products[..|products| - 1];
      var p := products[|products| - 1];
      assert Distinct(init);
      AccumulatedSnocSale(sales, x, recipes, init, w, c, weekOf);
      ContributionSnoc(sales, x, recipes, p, w, c, weekOf);
      assert products == init + [p];
      assert p !in init;
    }
  }

  /** Without sales every product adds nothing. */
  lemma {:induction false} AccumulatedNoSales(recipes: seq<IA.Row>, products: seq<string>, w: string, c: nat, weekOf: string -> string)
    requires IA.HasColumn(recipes, c)
    ensures Accumulated([], recipes, products, w, c, weekOf) == 0.0
  {
    if |products| > 0 {
      AccumulatedNoSales(recipes, products[..|products| - 1], w, c, weekOf);
    }
  }

  /** Visiting every sold product once, in any order, gives the per-sale sum. */
  lemma {:induction false} AccumulatedIsPerSale(sales: seq<SC.Sale>, recipes: seq<IA.Row>, products: seq<string>, w: string, c: nat, weekOf: string -> string)
    requires IA.HasColumn(recipes, c) && Distinct(products)
    requires forall j :: 0 <= j < |sales| ==> sales[j].article in products
    ensures Accumulated(sales, recipes, products, w, c, weekOf) == Expected(sales, recipes, w, c, weekOf)
  {
    if |sales| == 0 {
      AccumulatedNoSales(recipes, products, w, c, weekOf);
    } else {
      var init := sales[..|sales| - 1];
      var x := sales[|sales| - 1];
      assert forall j :: 0 <= j < |init| ==> init[j] == sales[j];
      AccumulatedIsPerSale(init, recipes, products, w, c, weekOf);
      AccumulatedSnocSale(init, x, recipes, products, w, c, weekOf);
      assert init + [x] == sales;
    }
  }

  /** The order in which the products are visited does not matter. */
  lemma AnyProductOrder(sales: seq<SC.Sale>, recipes: seq<IA.Row>, p1: seq<string>, p2: seq<string>, w: string, c: nat, weekOf: string -> string)
    requires IA.HasColumn(recipes, c) && Distinct(p1) && Distinct(p2)
    requires forall j :: 0 <= j < |sales| ==> sales[j].article in p1 && sales[j].article in p2
    ensures Accumulated(sales, recipes, p1, w, c, weekOf) == Accumulated(sales, recipes, p2, w, c, weekOf)
  {
    AccumulatedIsPerSale(sales, recipes, p1, w, c, weekOf);
    AccumulatedIsPerSale(sales, recipes, p2, w, c, weekOf);
  }

  /** A sale of a product without a recipe row changes no cell. */
  lemma NoRecipeNoUse(sales: seq<SC.Sale>, x: SC.Sale, recipes: seq<IA.Row>, w: string, c: nat, weekOf: string -> string)
    requires IA.HasColumn(recipes, c) && x.article !in Abc.Keys(recipes)
    ensures Expected(sales + [x], recipes, w, c, weekOf) == Expected(sales, recipes, w, c, weekOf)
  {
    assert (sales + [x])[..|sales|] == sales;
  }

  /** With non-negative quantities and amounts no cell is negative. */
  lemma {:induction false} ExpectedNonNegative(sales: seq<SC.Sale>, recipes: seq<IA.Row>, w: string, c: nat, weekOf: string -> string)
    requires IA.HasColumn(recipes, c)
    requires forall j :: 0 <= j < |sales| ==> 0.0 <= Counted(sales[j])
    requires forall i :: 0 <= i < |recipes| ==> 0.0 <= recipes[i].1[c]
    ensures 0.0 <= Expected(sales, recipes, w, c, weekOf)
  {
    if |sales| > 0 {
      var init := sales[..|sales| - 1];
      var x := sales[|sales| - 1];
      assert forall j :: 0 <= j < |init| ==> init[j] == sales[j];
      ExpectedNonNegative(init, recipes, w, c, weekOf);
      if x.article in Abc.Keys(recipes) {
        var amounts := RecipeRow(recipes, x.article);
        assert 0.0 <= amounts[c];
        TimesNonNegative(Counted(x), amounts, c);
      }
    }
  }

  lemma TimesNonNegative(q: real, amounts: seq<real>, c: nat)
    requires c < |amounts| && 0.0 <= q && 0.0 <= amounts[c]
    ensures 0.0 <= Times(q, amounts, c)
  {
  }

  /** What the outer loop adds for product `a`: its quantity in week `w` times its amount
      when it sold in `w`, and nothing otherwise. */
  lemma ContributionOfProduct(sales: seq<SC.Sale>, recipes: seq<IA.Row>, a: string, w: string, c: nat, weekOf: string -> string)
    requires IA.HasColumn(recipes, c) && a in Abc.Keys(recipes)
    ensures Contribution(sales, recipes, a, w, c, weekOf) ==
      if w in ProductWeeks(sales, a, weekOf) then Times(WeekQuantity(sales, a, w, weekOf), RecipeRow(recipes, a), c) else 0.0
  {
    if w !in ProductWeeks(sales, a, weekOf) {
      var weeks := WeeksOfArticle(sales, a, weekOf);
      assert forall k :: 0 <= k < |weeks| ==> weeks[k] in ProductWeeks(sales, a, weekOf);
      QuantityOutsideWeeks(sales, a, w, weekOf);
    }
  }

  // ---------------------------------------------------------------------------------------
  // The table and the loops

  /** The saved table: its row labels (weeks), its column labels (ingredients) and its
      cells, `cells[wi][c]` the amount of ingredient `c` used in week `wi`. */
  datatype WeeklyIngredients = WeeklyIngredients(weeks: seq<string>, ingredients: seq<string>, cells: seq<seq<real>>)

  /** `weekly_ingredients.loc[week] += total_quantity * product_ingredients`: row `wi` grows
      by `q` times the amounts, every other row stays; with non-negative `q` and amounts no
      cell decreases. */
  method AddRow(t: array2<real>, wi: nat, q: real, amounts: seq<real>)
    requires wi < t.Length0 && t.Length1 == |amounts|
    modifies t
    ensures forall v, c :: 0 <= v < t.Length0 && 0 <= c < t.Length1 ==>
      t[v, c] == if v == wi then old(t[v, c]) + Times(q, amounts, c) else old(t[v, c])
    ensures 0.0 <= q && (forall c :: 0 <= c < |amounts| ==> 0.0 <= amounts[c]) ==>
      forall v, c :: 0 <= v < t.Length0 && 0 <= c < t.Length1 ==> old(t[v, c]) <= t[v, c]
  {
    forall c | 0 <= c < t.Length1 {
      t[wi, c] := t[wi, c] + Times(q, amounts, c);
    }
    if 0.0 <= q && (forall c :: 0 <= c < |amounts| ==> 0.0 <= amounts[c]) {
      forall c | 0 <= c < |amounts| ensures 0.0 <= Times(q, amounts, c) {
        TimesNonNegative(q, amounts, c);
      }
    }
  }

  /** In a sequence without repetitions, the next element is not among the earlier ones. */
  lemma NextIsNew<T>(xs: seq<T>, k: nat)
    requires Distinct(xs) && k < |xs|
    ensures xs[..k + 1] == xs[..k] + [xs[k]] && xs[k] !in xs[..k]
  {
  }

  /** What the inner loop has added to a cell of week `w` once it has visited the weeks of
      `done`: the product's quantity that week times its amount, if `w` was visited. */
  function Added(sales: seq<SC.Sale>, product: string, amounts: seq<real>, w: string, done: seq<string>, c: nat, weekOf: string -> string): real
    requires c < |amounts|
  {
    if w in done then Times(WeekQuantity(sales, product, w, weekOf), amounts, c) else 0.0
  }

  /** One pass of the outer loop for a product with a recipe row: for each week in which it
      sold, that week's row grows by its quantity that week times its amounts. Each cell grows
      by what the product contributes to it. */
  method AddProduct(sales: seq<SC.Sale>, recipes: seq<IA.Row>, m: nat, weekOf: string -> string, product: string, weeks: seq<string>, t: array2<real>)
    requires forall i :: 0 <= i < |recipes| ==> |recipes[i].1| == m
    requires product in Abc.Keys(recipes)
    requires weeks == Weeks(sales, weekOf)
    requires t.Length0 == |weeks| && t.Length1 == m
    modifies t
    ensures forall wi, c :: 0 <= wi < |weeks| && 0 <= c < m ==>
      IA.HasColumn(recipes, c) && t[wi, c] == old(t[wi, c]) + Contribution(sales, recipes, product, weeks[wi], c, weekOf)
  {
    var amounts := RecipeRow(recipes, product);
    var productWeeks := ProductWeeks(sales, product, weekOf);
    var k := 0;
    while k < |productWeeks|
      invariant 0 <= k <= |productWeeks|
      invariant forall wi, c :: 0 <= wi < |weeks| && 0 <= c < m ==>
        t[wi, c] == old(t[wi, c]) + Added(sales, product, amounts, weeks[wi], productWeeks[..k], c, weekOf)
    {
      var week := productWeeks[k];
      var total := WeekQuantity(sales, product, week, weekOf);
      var wi := Position(weeks, week);
      ghost var after := productWeeks[..k + 1];
      NextIsNew(productWeeks, k);
      AddRow(t, wi, total, amounts);
      forall v, c | 0 <= v < |weeks| && 0 <= c < m
        ensures t[v, c] == old(t[v, c]) + Added(sales, product, amounts, weeks[v], after, c, weekOf)
      {
        if v != wi {
          assert weeks[v] != week;
        }
      }
      k := k + 1;
    }
    assert productWeeks[..k] == productWeeks;
    forall wi, c | 0 <= wi < |weeks| && 0 <= c < m
      ensures IA.HasColumn(recipes, c) && t[wi, c] == old(t[wi, c]) + Contribution(sales, recipes, product, weeks[wi], c, weekOf)
    {
      ContributionOfProduct(sales, recipes, product, weeks[wi], c, weekOf);
    }
  }

  /** The outer loop over a zero table with one row per week of `weeks` and `m` columns:
      each product with a recipe row in turn adds its contribution, and a product without
      one is skipped. When `products` lists every sold product once, in whatever order, cell
      (`wi`, `c`) ends as the per-sale sum for week `weeks[wi]` and ingredient `c`. */
  method Accumulate(sales: seq<SC.Sale>, recipes: seq<IA.Row>, m: nat, weekOf: string -> string, products: seq<string>, weeks: seq<string>, t: array2<real>)
    requires forall i :: 0 <= i < |recipes| ==> |recipes[i].1| == m
    requires weeks == Weeks(sales, weekOf)
    requires t.Length0 == |weeks| && t.Length1 == m
    requires forall wi, c :: 0 <= wi < |weeks| && 0 <= c < m ==> t[wi, c] == 0.0
    requires Distinct(products) && forall j :: 0 <= j < |sales| ==> sales[j].article in products
    modifies t
    ensures forall wi, c :: 0 <= wi < |weeks| && 0 <= c < m ==>
      IA.HasColumn(recipes, c) && t[wi, c] == Expected(sales, recipes, weeks[wi], c, weekOf)
  {
    var i := 0;
    while i < |products|
      invariant 0 <= i <= |products|
      invariant forall wi, c :: 0 <= wi < |weeks| && 0 <= c < m ==>
        IA.HasColumn(recipes, c) && t[wi, c] == Accumulated(sales, recipes, products[..i], weeks[wi], c, weekOf)
    {
      var product := products[i];
      if product in Abc.Keys(recipes) {
        AddProduct(sales, recipes, m, weekOf, product, weeks, t);
      }
      forall wi, c | 0 <= wi < |weeks| && 0 <= c < m
        ensures IA.HasColumn(recipes, c) &&
          t[wi, c] == Accumulated(sales, recipes, products[..i + 1], weeks[wi], c, weekOf)
      {
        AccumulatedStep(sales, recipes, products, i, weeks[wi], c, weekOf);
      }
      i := i + 1;
    }
    assert products[..i] == products;
    forall wi, c | 0 <= wi < |weeks| && 0 <= c < m
      ensures t[wi, c] == Expected(sales, recipes, weeks[wi], c, weekOf)
    {
      AccumulatedIsPerSale(sales, recipes, products, weeks[wi], c, weekOf);
    }
  }

  /** Visiting one more product adds its contribution. */
  lemma AccumulatedStep(sales: seq<SC.Sale>, recipes: seq<IA.Row>, products: seq<string>, i: nat, w: string, c: nat, weekOf: string -> string)
    requires IA.HasColumn(recipes, c) && i < |products|
    ensures Accumulated(sales, recipes, products[..i + 1], w, c, weekOf) ==
      Accumulated(sales, recipes, products[..i], w, c, weekOf) + Contribution(sales, recipes, products[i], w, c, weekOf)
  {
    assert products[..i + 1][..i] == products[..i];
  }

  /** The table's cells as rows of values. */
  function Cells(t: array2<real>): (r: seq<seq<real>>)
    reads t
    ensures |r| == t.Length0
    ensures forall wi :: 0 <= wi < t.Length0 ==> |r[wi]| == t.Length1
    ensures forall wi, c :: 0 <= wi < t.Length0 && 0 <= c < t.Length1 ==> r[wi][c] == t[wi, c]
  {
    seq(t.Length0, wi requires 0 <= wi < t.Length0 reads t =>
      seq(t.Length1, c requires 0 <= c < t.Length1 reads t => t[wi, c]))
  }

  /** The table-building step of `generate_weekly_ingredient_series`, on the selected recipe
      rows (`m` amounts each): a zero row per sales week, then the accumulation over the
      sold products. Row `wi` is week `weeks[wi]`, and each
      cell is the per-sale sum of what that week's sales use of that ingredient. */
  method WeeklyTable(sales: seq<SC.Sale>, rows: seq<IA.Row>, m: nat, weekOf: string -> string)
    returns (weeks: seq<string>, cells: seq<seq<real>>)
    requires forall i :: 0 <= i < |rows| ==> |rows[i].1| == m
    ensures weeks == Weeks(sales, weekOf)
    ensures |cells| == |weeks| && forall wi :: 0 <= wi < |cells| ==> |cells[wi]| == m
    ensures forall wi, c :: 0 <= wi < |weeks| && 0 <= c < m ==>
      IA.HasColumn(rows, c) && cells[wi][c] == Expected(sales, rows, weeks[wi], c, weekOf)
  {
    weeks := Weeks(sales, weekOf);
    var t := new real[|weeks|, m]((_, _) => 0.0);
    var products := SoldProducts(sales);
    Accumulate(sales, rows, m, weekOf, products, weeks, t);
    cells := Cells(t);
  }

  /** The whole script: select the ingredient columns, then build the weekly table. A
      missing ingredient column is a key error; otherwise the rows are the sales weeks, the
      columns the selected ingredients, and every cell is the per-sale sum of what that
      week's sales use of that ingredient. */
  method GenerateWeeklyIngredientSeries(sales: seq<SC.Sale>, header: seq<string>, recipes: seq<IA.Row>, selected: seq<string>, weekOf: string -> string)
    returns (r: Result<WeeklyIngredients>)
    requires forall i :: 0 <= i < |recipes| ==> |recipes[i].1| == |header|
    ensures r.Err? <==> exists c :: 0 <= c < |selected| && selected[c] !in header
    ensures r.Err? ==> r.error == SelectIngredients(header, recipes, selected).error
    ensures r.Ok? ==> r.value.weeks == Weeks(sales, weekOf) && r.value.ingredients == selected
    ensures r.Ok? ==> |r.value.cells| == |r.value.weeks|
    ensures r.Ok? ==> forall wi :: 0 <= wi < |r.value.cells| ==> |r.value.cells[wi]| == |selected|
    ensures r.Ok? ==> forall wi, c :: 0 <= wi < |r.value.weeks| && 0 <= c < |selected| ==>
      IA.HasColumn(SelectIngredients(header, recipes, selected).value, c) &&
      r.value.cells[wi][c] == Expected(sales, SelectIngredients(header, recipes, selected).value, r.value.weeks[wi], c, weekOf)
  {
    var chosen := SelectIngredients(header, recipes, selected);
    if chosen.Err? {
      return Err(chosen.error);
    }
    var weeks, cells := WeeklyTable(sales, chosen.value, |selected|, weekOf);
    r := Ok(WeeklyIngredients(weeks, selected, cells));
  }
}
