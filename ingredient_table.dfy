/** `clean_ingredient_data`: the recipe table as read from its file has one column per
    product plus a first column of ingredient labels; the cleaning drops empty columns,
    renames the product columns, makes the labels the index, transposes the table so that
    products become rows, and fills the missing cells with zero. */
module IngredientTable {
  import opened Common

  /** A cell as read from the file: missing (NaN), a label, or a number. */
  datatype Cell = Missing | Text(text: string) | Number(x: real)

  /** A column of the table as read: its header and its cells, top to bottom. */
  type Column = (string, seq<Cell>)

  /** The names the 24 product columns receive, in order. */
  const ProductNames: seq<string> := [
    "TRADITIONAL BAGUETTE", "FORMULE SANDWICH", "CROISSANT", "PAIN AU CHOCOLAT", "BANETTE",
    "BAGUETTE", "SANDWICH COMPLET", "SPECIAL BREAD TRAITEUR", "GRAND FAR BRETON", "TARTELETTE",
    "CEREAL BAGUETTE", "VIK BREAD", "BRIOCHE", "GD KOUIGN AMANN", "CAMPAGNE", "BOULE 400G",
    "ECLAIR", "MOISSON", "SAND JB EMMENTAL", "COMPLET", "KOUIGN AMANN", "PAIN BANETTE",
    "DIVERS VIENNOISERIE", "FINANCIER X5"
  ]

  /** Every column has `height` cells, as in a data frame. */
  predicate Rectangular(cols: seq<Column>, height: nat)
  {
    forall k :: 0 <= k < |cols| ==> |cols[k].1| == height
  }

  predicate AllMissing(cells: seq<Cell>)
  {
    forall i :: 0 <= i < |cells| ==> cells[i].Missing?
  }

  predicate HasValue(c: Column)
  {
    !AllMissing(c.1)
  }

  /** `dropna(axis=1, how='all')`: exactly the columns holding a value survive, in their
      original order. */
  function DropEmptyColumns(cols: seq<Column>): (r: seq<Column>)
    ensures IsSubsequence(r, cols)
    ensures forall k :: 0 <= k < |r| ==> !AllMissing(r[k].1)
    ensures forall k :: 0 <= k < |cols| && !AllMissing(cols[k].1) ==> cols[k] in r
    ensures |r| == CountWhere(cols, HasValue)
  {
    FilterIsSubsequence(cols, HasValue);
    FilterLength(cols, HasValue);
    var r := Filter(cols, HasValue);
    assert forall k :: 0 <= k < |r| ==> HasValue(r[k]);
    r
  }

  /** The transposed table: one row per product, one column per ingredient label,
      `cells[p][i]` the amount of ingredient `i` in product `p`. */
  datatype Recipes = Recipes(products: seq<string>, ingredients: seq<Cell>, cells: seq<seq<Cell>>)

  /** Every row of the table has one cell per ingredient label. */
  predicate WellShaped(t: Recipes)
  {
    |t.cells| == |t.products| && forall p :: 0 <= p < |t.cells| ==> |t.cells[p]| == |t.ingredients|
  }

  /** The steps before the fill: `data.columns[0]` fails on a table without columns, the
      rename fails unless the first column and the 24 names give exactly the number of
      columns left, then the first column becomes the index and the table is transposed. */
  function Reshape(cols: seq<Column>, height: nat): (r: Result<Recipes>)
    requires Rectangular(cols, height)
    ensures r.Ok? ==> WellShaped(r.value)
  {
    var kept := DropEmptyColumns(cols);
    if |kept| == 0 then Err(IndexError)
    else if |kept| != 1 + |ProductNames| then Err(ValueError("Length mismatch"))
    else
      assert forall k :: 0 <= k < |kept| ==> kept[k] in cols;
      Ok(Recipes(ProductNames, kept[0].1, seq(|ProductNames|, p requires 0 <= p < |ProductNames| => kept[p + 1].1)))
  }

  /** The reshaping succeeds exactly when 25 columns hold a value, fails with an index
      error when none does and with a length mismatch otherwise; on success the rows are
      the 24 product names in order, the columns are the first column's labels, and cell
      (p, i) is the original cell in row i of the (p + 1)-th kept column. */
  lemma ReshapeIsTransposition(cols: seq<Column>, height: nat)
    requires Rectangular(cols, height)
    ensures Reshape(cols, height).Ok? <==> CountWhere(cols, HasValue) == 25
    ensures Reshape(cols, height) == Err(IndexError) <==> CountWhere(cols, HasValue) == 0
    ensures Reshape(cols, height).Err? && CountWhere(cols, HasValue) != 0 ==>
      Reshape(cols, height).error.ValueError?
    ensures Rectangular(DropEmptyColumns(cols), height)
    ensures Reshape(cols, height).Ok? ==>
      var t := Reshape(cols, height).value;
      var kept := DropEmptyColumns(cols);
      t.products == ProductNames && |t.products| == 24 &&
      t.ingredients == kept[0].1 && |t.ingredients| == height &&
      forall p, i :: 0 <= p < 24 && 0 <= i < height ==> t.cells[p][i] == kept[p + 1].1[i]
  {
    var kept := DropEmptyColumns(cols);
    if |kept| == 25 {
      assert kept[0] in cols;
    }
  }

  /** `fillna(0)` on one cell. */
  function FillCell(c: Cell): (r: Cell)
    ensures !r.Missing?
    ensures !c.Missing? ==> r == c
  {
    if c.Missing? then Number(0.0) else c
  }

  /** The loop `for column in data.columns: data[column] = data[column].fillna(0)`: column
      by column, every missing cell becomes zero and every other cell is kept. */
  method FillColumns(t: Recipes) returns (r: Recipes)
    requires WellShaped(t)
    ensures r.products == t.products && r.ingredients == t.ingredients && WellShaped(r)
    ensures forall p, i :: 0 <= p < |t.cells| && 0 <= i < |t.ingredients| ==>
      r.cells[p][i] == (if t.cells[p][i].Missing? then Number(0.0) else t.cells[p][i])
  {
    var cells := t.cells;
    var j := 0;
    while j < |t.ingredients|
      invariant 0 <= j <= |t.ingredients|
      invariant |cells| == |t.cells|
      invariant forall p :: 0 <= p < |cells| ==> |cells[p]| == |t.ingredients|
      invariant forall p, i :: 0 <= p < |cells| && 0 <= i < |t.ingredients| ==>
        cells[p][i] == if i < j then FillCell(t.cells[p][i]) else t.cells[p][i]
    {
      cells := seq(|cells|, p requires 0 <= p < |cells| => cells[p][j := FillCell(cells[p][j])]);
      j := j + 1;
    }
    r := Recipes(t.products, t.ingredients, cells);
  }

  /** The whole cleaning. On success no cell is missing, every cell that had a value keeps
      it, and the table is the transposition of the kept columns. */
  method CleanIngredientData(cols: seq<Column>, height: nat) returns (r: Result<Recipes>)
    requires Rectangular(cols, height)
    ensures r.Ok? <==> CountWhere(cols, HasValue) == 25
    ensures r.Err? ==> r == Reshape(cols, height)
    ensures r.Ok? ==> r.value.products == ProductNames && WellShaped(r.value)
    ensures r.Ok? ==> |DropEmptyColumns(cols)| == 25 && Rectangular(DropEmptyColumns(cols), height)
    ensures r.Ok? ==> r.value.ingredients == DropEmptyColumns(cols)[0].1
    ensures r.Ok? ==> forall p, i :: 0 <= p < 24 && 0 <= i < height ==>
      !r.value.cells[p][i].Missing? &&
      (DropEmptyColumns(cols)[p + 1].1[i].Missing? ==> r.value.cells[p][i] == Number(0.0)) &&
      (!DropEmptyColumns(cols)[p + 1].1[i].Missing? ==> r.value.cells[p][i] == DropEmptyColumns(cols)[p + 1].1[i])
  {
    ReshapeIsTransposition(cols, height);
    var reshaped := Reshape(cols, height);
    if reshaped.Err? {
      return reshaped;
    }
    var filled := FillColumns(reshaped.value);
    r := Ok(filled);
  }
}
