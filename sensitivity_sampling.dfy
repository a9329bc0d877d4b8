/** `sensitivity_analysis.py`: the expected total cost of sampled demands at a fixed lot
    size of 1000, for every season row of the statistics table and each of four ingredients.
    The normal samples are an input. */
module SensitivitySampling {
  import opened Common
  import CostModel

  /** One row of the statistics frame: the season number and the `<word>_Media` /
      `<word>_DE` columns. `iterrows` hands the season over as a float (1.0 to 4.0), since
      the row mixes it with float columns; it is kept as the whole number it holds. */
  datatype StatsRow = StatsRow(temporada: int, columns: map<string, real>)

  datatype Supply = Supply(b: real, c1: real, sp: real)

  /** One appended row. */
  datatype RowS = RowS(temporada: int, insumo: string, muestra: int, demanda: real, cte: real)

  /** The dict of five lists `resultados`. */
  datatype Resultados = Resultados(temporada: seq<int>, insumo: seq<string>, muestra: seq<int>,
                                   demanda: seq<real>, cte: seq<real>)
  {
    function Append(r: RowS): Resultados
    {
      Resultados(temporada + [r.temporada], insumo + [r.insumo], muestra + [r.muestra],
                 demanda + [r.demanda], cte + [r.cte])
    }

    predicate SameLength()
    {
      |temporada| == |insumo| == |muestra| == |demanda| == |cte|
    }

    function RowOf(i: nat): RowS
      requires SameLength() && i < |cte|
    {
      RowS(temporada[i], insumo[i], muestra[i], demanda[i], cte[i])
    }
  }

  function Columns(rows: seq<RowS>): (r: Resultados)
    ensures r.SameLength() && |r.cte| == |rows|
  {
    if |rows| == 0 then Resultados([], [], [], [], [])
    else Columns(rows[..|rows| - 1]).Append(rows[|rows| - 1])
  }

  /** Row `i` of the lists is the `i`-th appended row. */
  lemma {:induction false} ColumnsAt(rows: seq<RowS>, i: nat)
    requires i < |rows|
    ensures Columns(rows).RowOf(i) == rows[i]
  {
    if i < |rows| - 1 {
      ColumnsAt(rows[..|rows| - 1], i);
    }
  }

  lemma ColumnsSnoc(rows: seq<RowS>, r: RowS)
    ensures Columns(rows + [r]) == Columns(rows).Append(r)
  {
    assert (rows + [r])[..|rows|] == rows;
  }

  /** The fixed ingredient list of the loop, in its order. */
  const InsumosLista: seq<string> := ["Harina de Trigo", "Manteca", "Sal", "Azúcar"]

  const MuestrasPorTemporada: nat := 30

  /** Rows per statistics row: four ingredients with 30 samples each. */
  const RowsPerSeason: nat := 120

  /** The lot size and order cost every row uses. */
  const LotSize: real := 1000.0

  /** The ASCII blanks `str.split()` separates words on. `split` also breaks at the
      separators U+001C to U+001F and at Unicode blanks; none of them occurs in the
      script's four ingredient names, the only strings split here, so they are left out. */
  predicate IsSpace(c: char)
  {
    c == ' ' || c == '\t' || c == '\n' || c == '\r' || c == '\U{B}' || c == '\U{C}'
  }

  /** The index of the first non-space character at or after `j`, or `|s|`. */
  function SkipSpaces(s: string, j: nat): (r: nat)
    requires j <= |s|
    ensures j <= r <= |s|
    ensures forall k :: j <= k < r ==> IsSpace(s[k])
    ensures r == |s| || !IsSpace(s[r])
    decreases |s| - j
  {
    if j == |s| || !IsSpace(s[j]) then j else SkipSpaces(s, j + 1)
  }

  /** The index of the first space character at or after `j`, or `|s|`. */
  function WordEnd(s: string, j: nat): (r: nat)
    requires j <= |s|
    ensures j <= r <= |s|
    ensures forall k :: j <= k < r ==> !IsSpace(s[k])
    ensures r == |s| || IsSpace(s[r])
    decreases |s| - j
  {
    if j == |s| || IsSpace(s[j]) then j else WordEnd(s, j + 1)
  }

  /** `w` occurs in `s` at `j`, after only spaces and followed by a space or the end. */
  predicate WordAt(s: string, w: string, j: nat)
  {
    j + |w| <= |s| && s[j..j + |w|] == w &&
    (forall k :: 0 <= k < j ==> IsSpace(s[k])) &&
    (j + |w| == |s| || IsSpace(s[j + |w|]))
  }

  /** `s.split()[0]`: the first maximal run of non-space characters; a string with no such
      run makes the indexing raise. */
  function FirstWord(s: string): (r: Result<string>)
    ensures r.Err? <==> forall k :: 0 <= k < |s| ==> IsSpace(s[k])
    ensures r.Err? ==> r.error == IndexError
    ensures r.Ok? ==> exists j :: WordAt(s, r.value, j)
    ensures r.Ok? ==> |r.value| > 0 && forall k :: 0 <= k < |r.value| ==> !IsSpace(r.value[k])
  {
    var j := SkipSpaces(s, 0);
    if j == |s| then Err(IndexError)
    else
      var e := WordEnd(s, j);
      assert s[j..e][0] == s[j];
      assert WordAt(s, s[j..e], j);
      Ok(s[j..e])
  }

  /** The column names read for an ingredient: first word + "_Media" and + "_DE". */
  function MediaKey(insumo: string): (r: Result<string>)
    ensures r.Err? <==> forall k :: 0 <= k < |insumo| ==> IsSpace(insumo[k])
    ensures r.Ok? ==> |r.value| > 6 && r.value[|r.value| - 6..] == "_Media"
    ensures r.Ok? ==> forall k :: 0 <= k < |r.value| - 6 ==> !IsSpace(r.value[k])
  {
    match FirstWord(insumo)
    case Ok(w) =>
      assert (w + "_Media")[|w|..] == "_Media";
      Ok(w + "_Media")
    case Err(e) => Err(e)
  }

  function DeKey(insumo: string): (r: Result<string>)
    ensures r.Err? <==> forall k :: 0 <= k < |insumo| ==> IsSpace(insumo[k])
    ensures r.Ok? ==> |r.value| > 3 && r.value[|r.value| - 3..] == "_DE"
    ensures r.Ok? ==> forall k :: 0 <= k < |r.value| - 3 ==> !IsSpace(r.value[k])
  {
    match FirstWord(insumo)
    case Ok(w) =>
      assert (w + "_DE")[|w|..] == "_DE";
      Ok(w + "_DE")
    case Err(e) => Err(e)
  }

  /** The first word of each listed ingredient, as the table's column names spell it. */
  const ColumnWords: seq<string> := ["Harina", "Manteca", "Sal", "Azúcar"]

  /** The four ingredients read the columns of the table: "Harina de Trigo" reads
      "Harina_Media" and "Harina_DE", the one-word names read their own name. */
  lemma ListKeys()
    ensures forall i :: 0 <= i < |InsumosLista| ==>
      MediaKey(InsumosLista[i]) == Ok(ColumnWords[i] + "_Media") &&
      DeKey(InsumosLista[i]) == Ok(ColumnWords[i] + "_DE")
  {
    forall i | 0 <= i < |InsumosLista|
      ensures MediaKey(InsumosLista[i]) == Ok(ColumnWords[i] + "_Media") &&
              DeKey(InsumosLista[i]) == Ok(ColumnWords[i] + "_DE")
    {
      var e := |ColumnWords[i]|;
      FirstWordIs(InsumosLista[i], e);
      assert InsumosLista[i][..e] == ColumnWords[i];
    }
  }

  /** A string that starts with a word ending at `e` has that word first. */
  lemma FirstWordIs(s: string, e: nat)
    requires 0 < e <= |s| && (e == |s| || IsSpace(s[e]))
    requires forall k :: 0 <= k < e ==> !IsSpace(s[k])
    ensures FirstWord(s) == Ok(s[..e])
  {
    assert SkipSpaces(s, 0) == 0;
    WordEndIs(s, 0, e);
  }

  lemma {:induction false} WordEndIs(s: string, j: nat, e: nat)
    requires j <= e <= |s| && (e == |s| || IsSpace(s[e]))
    requires forall k :: j <= k < e ==> !IsSpace(s[k])
    ensures WordEnd(s, j) == e
    decreases e - j
  {
    if j < e {
      WordEndIs(s, j + 1, e);
    }
  }

  /** The statistics table has every column the loop reads, every listed ingredient has
      cost data, and the samples are four lists of 30 per table row. */
  predicate Covered(df: seq<StatsRow>, insumos: map<string, Supply>, muestras: seq<seq<seq<real>>>)
  {
    (forall i :: 0 <= i < |InsumosLista| ==> InsumosLista[i] in insumos) &&
    |muestras| == |df| &&
    forall t :: 0 <= t < |df| ==> RowFits(df[t], muestras[t])
  }

  predicate RowFits(row: StatsRow, muestras: seq<seq<real>>)
  {
    |muestras| == |InsumosLista| &&
    forall i :: 0 <= i < |InsumosLista| ==>
      |muestras[i]| == MuestrasPorTemporada &&
      MediaKey(InsumosLista[i]).Ok? && MediaKey(InsumosLista[i]).value in row.columns &&
      DeKey(InsumosLista[i]).Ok? && DeKey(InsumosLista[i]).value in row.columns
  }

  /** The 30 rows for table row t's i-th ingredient: sample m is numbered
      120·t + 30·i + m + 1, its demand is the raw sample, and its cost uses q = 1000,
      k = 30000 and the ingredient's own c1, b and Sp. */
  function PairRows(df: seq<StatsRow>, insumos: map<string, Supply>, muestras: seq<seq<seq<real>>>,
                    t: nat, i: nat): (r: seq<RowS>)
    requires Covered(df, insumos, muestras) && t < |df| && i < |InsumosLista|
    ensures |r| == MuestrasPorTemporada
  {
    var insumo := InsumosLista[i];
    var sup := insumos[insumo];
    seq(MuestrasPorTemporada, m requires 0 <= m < MuestrasPorTemporada =>
      RowS(df[t].temporada, insumo, RowsPerSeason * t + MuestrasPorTemporada * i + m + 1, muestras[t][i][m],
           CostModel.Cte(muestras[t][i][m], CostModel.OrderCost, LotSize, sup.c1, sup.b, sup.sp)))
  }

  function SeasonBlocks(df: seq<StatsRow>, insumos: map<string, Supply>, muestras: seq<seq<seq<real>>>,
                        t: nat): seq<seq<RowS>>
    requires Covered(df, insumos, muestras) && t < |df|
  {
    seq(|InsumosLista|, i requires 0 <= i < |InsumosLista| => PairRows(df, insumos, muestras, t, i))
  }

  function SeasonRows(df: seq<StatsRow>, insumos: map<string, Supply>, muestras: seq<seq<seq<real>>>): seq<seq<RowS>>
    requires Covered(df, insumos, muestras)
  {
    seq(|df|, t requires 0 <= t < |df| => Concat(SeasonBlocks(df, insumos, muestras, t)))
  }

  /** Every row of the script: table row by table row, ingredient by ingredient in list
      order, sample by sample. */
  function AllRows(df: seq<StatsRow>, insumos: map<string, Supply>, muestras: seq<seq<seq<real>>>): seq<RowS>
    requires Covered(df, insumos, muestras)
  {
    Concat(SeasonRows(df, insumos, muestras))
  }

  /** The loop over the 30 samples of table row t's i-th ingredient; `done` holds
      120·t + 30·i rows. */
  method AppendSamples(res: Resultados, ghost done: seq<RowS>, df: seq<StatsRow>, insumos: map<string, Supply>,
                       muestras: seq<seq<seq<real>>>, t: nat, i: nat)
    returns (res': Resultados)
    requires Covered(df, insumos, muestras) && t < |df| && i < |InsumosLista|
    requires res == Columns(done) && |done| == RowsPerSeason * t + MuestrasPorTemporada * i
    ensures res' == Columns(done + PairRows(df, insumos, muestras, t, i))
  {
    var row := df[t];
    var insumo := InsumosLista[i];
    // The mean and deviation parametrise the sampler; the samples themselves are given.
    var media := row.columns[MediaKey(insumo).value];
    var desviacion := row.columns[DeKey(insumo).value];
    var samples := muestras[t][i];
    ghost var pair := PairRows(df, insumos, muestras, t, i);
    res' := res;
    var m := 0;
    assert done + pair[..0] == done;
    while m < |samples|
      invariant 0 <= m <= |samples|
      invariant res' == Columns(done + pair[..m])
    {
      var muestra := samples[m];
      var b := insumos[insumo].b;
      var c1 := insumos[insumo].c1;
      var sp := insumos[insumo].sp;
      var q := 1000.0;
      var k := 30000.0;
      var cte := CostModel.Cte(muestra, k, q, c1, b, sp);
      var next := RowS(row.temporada, insumo, |res'.muestra| + 1, muestra, cte);
      assert next == pair[m];
      ColumnsSnoc(done + pair[..m], next);
      SnocPrefix(done, pair, m);
      res' := res'.Append(next);
      m := m + 1;
    }
    assert pair[..m] == pair;
  }

  /** The loop over the four listed ingredients of table row t. */
  method AppendSeason(res: Resultados, ghost done: seq<RowS>, df: seq<StatsRow>, insumos: map<string, Supply>,
                      muestras: seq<seq<seq<real>>>, t: nat)
    returns (res': Resultados)
    requires Covered(df, insumos, muestras) && t < |df|
    requires res == Columns(done) && |done| == RowsPerSeason * t
    ensures res' == Columns(done + Concat(SeasonBlocks(df, insumos, muestras, t)))
  {
    ghost var blocks := SeasonBlocks(df, insumos, muestras, t);
    res' := res;
    var i := 0;
    assert done + Concat(blocks[..0]) == done;
    while i < |InsumosLista|
      invariant 0 <= i <= |InsumosLista|
      invariant res' == Columns(done + Concat(blocks[..i]))
    {
      UniformBlockStart(blocks, MuestrasPorTemporada, i);
      res' := AppendSamples(res', done + Concat(blocks[..i]), df, insumos, muestras, t, i);
      ConcatStepAfter(done, blocks, i);
      i := i + 1;
    }
    assert blocks[..i] == blocks;
  }

  lemma SeasonLength(df: seq<StatsRow>, insumos: map<string, Supply>, muestras: seq<seq<seq<real>>>, t: nat)
    requires Covered(df, insumos, muestras) && t < |df|
    ensures |Concat(SeasonBlocks(df, insumos, muestras, t))| == RowsPerSeason
  {
    ConcatUniformLength(SeasonBlocks(df, insumos, muestras, t), MuestrasPorTemporada);
  }

  /** The loops of the script: the lists hold exactly `AllRows`; the number of each row is
      read from the length of the list it is appended to. */
  method SamplingLoop(df: seq<StatsRow>, insumos: map<string, Supply>, muestras: seq<seq<seq<real>>>)
    returns (res: Resultados)
    requires Covered(df, insumos, muestras)
    ensures res == Columns(AllRows(df, insumos, muestras))
  {
    ghost var seasons := SeasonRows(df, insumos, muestras);
    forall k | 0 <= k < |seasons| ensures |seasons[k]| == RowsPerSeason {
      SeasonLength(df, insumos, muestras, k);
    }
    res := Resultados([], [], [], [], []);
    var t := 0;
    while t < |df|
      invariant 0 <= t <= |df|
      invariant res == Columns(Concat(seasons[..t]))
    {
      UniformBlockStart(seasons, RowsPerSeason, t);
      res := AppendSeason(res, Concat(seasons[..t]), df, insumos, muestras, t);
      ConcatStep(seasons, t);
      t := t + 1;
    }
    assert seasons[..t] == seasons;
  }

  /** The row for table row t, ingredient i of the list, sample m sits at
      n = 120·t + 30·i + m and is numbered n + 1. */
  lemma RowAt(df: seq<StatsRow>, insumos: map<string, Supply>, muestras: seq<seq<seq<real>>>,
              t: nat, i: nat, m: nat)
    requires Covered(df, insumos, muestras)
    requires t < |df| && i < |InsumosLista| && m < MuestrasPorTemporada
    ensures var n := RowsPerSeason * t + MuestrasPorTemporada * i + m;
      var sup := insumos[InsumosLista[i]];
      n < |AllRows(df, insumos, muestras)| &&
      AllRows(df, insumos, muestras)[n] ==
        RowS(df[t].temporada, InsumosLista[i], n + 1, muestras[t][i][m],
             CostModel.Cte(muestras[t][i][m], CostModel.OrderCost, LotSize, sup.c1, sup.b, sup.sp))
  {
    SeasonRowAt(df, insumos, muestras, t, i, m);
    AllRowsAt(df, insumos, muestras, t, MuestrasPorTemporada * i + m);
    var sup := insumos[InsumosLista[i]];
    assert PairRows(df, insumos, muestras, t, i)[m] ==
      RowS(df[t].temporada, InsumosLista[i], RowsPerSeason * t + MuestrasPorTemporada * i + m + 1, muestras[t][i][m],
           CostModel.Cte(muestras[t][i][m], CostModel.OrderCost, LotSize, sup.c1, sup.b, sup.sp));
  }

  /** Position j of table row t's rows sits after the 120 rows of each earlier table row. */
  lemma AllRowsAt(df: seq<StatsRow>, insumos: map<string, Supply>, muestras: seq<seq<seq<real>>>, t: nat, j: nat)
    requires Covered(df, insumos, muestras) && t < |df| && j < RowsPerSeason
    ensures |Concat(SeasonBlocks(df, insumos, muestras, t))| == RowsPerSeason
    ensures RowsPerSeason * t + j < |AllRows(df, insumos, muestras)|
    ensures AllRows(df, insumos, muestras)[RowsPerSeason * t + j] == Concat(SeasonBlocks(df, insumos, muestras, t))[j]
  {
    var seasons := SeasonRows(df, insumos, muestras);
    forall k | 0 <= k < |seasons| ensures |seasons[k]| == RowsPerSeason {
      SeasonLength(df, insumos, muestras, k);
    }
    UniformBlockStart(seasons, RowsPerSeason, t);
    assert seasons[t] == Concat(SeasonBlocks(df, insumos, muestras, t));
    ConcatAt(seasons, t, j);
  }

  /** Position 30·i + m of table row t's rows is sample m of its i-th ingredient. */
  lemma SeasonRowAt(df: seq<StatsRow>, insumos: map<string, Supply>, muestras: seq<seq<seq<real>>>,
                    t: nat, i: nat, m: nat)
    requires Covered(df, insumos, muestras)
    requires t < |df| && i < |InsumosLista| && m < MuestrasPorTemporada
    ensures MuestrasPorTemporada * i + m < |Concat(SeasonBlocks(df, insumos, muestras, t))|
    ensures Concat(SeasonBlocks(df, insumos, muestras, t))[MuestrasPorTemporada * i + m] ==
            PairRows(df, insumos, muestras, t, i)[m]
  {
    var blocks := SeasonBlocks(df, insumos, muestras, t);
    ConcatAt(blocks, i, m);
    UniformBlockStart(blocks, MuestrasPorTemporada, i);
  }

  /** The script appends 120 rows per table row. */
  lemma AllRowsLength(df: seq<StatsRow>, insumos: map<string, Supply>, muestras: seq<seq<seq<real>>>)
    requires Covered(df, insumos, muestras)
    ensures |AllRows(df, insumos, muestras)| == RowsPerSeason * |df|
  {
    var seasons := SeasonRows(df, insumos, muestras);
    forall k | 0 <= k < |seasons| ensures |seasons[k]| == RowsPerSeason {
      SeasonLength(df, insumos, muestras, k);
    }
    ConcatUniformLength(seasons, RowsPerSeason);
  }

  /** Every row's number is its position + 1, so the rows are numbered 1..N across all
      table rows and ingredients. */
  lemma RowNumbering(df: seq<StatsRow>, insumos: map<string, Supply>, muestras: seq<seq<seq<real>>>, n: nat)
    requires Covered(df, insumos, muestras) && n < RowsPerSeason * |df|
    ensures n < |AllRows(df, insumos, muestras)| && AllRows(df, insumos, muestras)[n].muestra == n + 1
  {
    IndexParts(n, |df|);
    RowAt(df, insumos, muestras, n / RowsPerSeason, (n % RowsPerSeason) / MuestrasPorTemporada, n % MuestrasPorTemporada);
  }

  lemma IndexParts(n: nat, rows: nat)
    requires n < RowsPerSeason * rows
    ensures n / RowsPerSeason < rows && (n % RowsPerSeason) / MuestrasPorTemporada < |InsumosLista|
    ensures n == RowsPerSeason * (n / RowsPerSeason) + MuestrasPorTemporada * ((n % RowsPerSeason) / MuestrasPorTemporada) +
                 n % MuestrasPorTemporada
  {
    var r := n % RowsPerSeason;
    assert n == RowsPerSeason * (n / RowsPerSeason) + r;
    assert r == MuestrasPorTemporada * (r / MuestrasPorTemporada) + r % MuestrasPorTemporada;
    assert r % MuestrasPorTemporada == n % MuestrasPorTemporada;
  }
}
