/** `sensitivity_analysis_q.py`: the expected total cost over a grid of 20 lot sizes
    around season 1's lot size, for every season and ingredient. */
module SensitivityQ {
  import opened Common
  import CostModel

  /** A season: its name, its duration in weeks and the weekly mean demand of each
      ingredient, in the order of the source's dict. */
  datatype Season = Season(name: string, duration: real, demands: seq<(string, real)>)

  /** An ingredient's cost data: unit acquisition cost b, unit holding cost c1,
      protective stock Sp. */
  datatype Supply = Supply(b: real, c1: real, sp: real)

  /** One appended row: season, ingredient, lot size, total demand, cost. */
  datatype RowQ = RowQ(temporada: string, insumo: string, q: real, demandaTotal: real, cte: real)

  /** The dict of five lists `resultados_q`. */
  datatype ResultadosQ = ResultadosQ(temporada: seq<string>, insumo: seq<string>, q: seq<real>,
                                     demandaTotal: seq<real>, cte: seq<real>)
  {
    /** The five `append` calls for one row. */
    function Append(r: RowQ): ResultadosQ
    {
      ResultadosQ(temporada + [r.temporada], insumo + [r.insumo], q + [r.q],
                  demandaTotal + [r.demandaTotal], cte + [r.cte])
    }

    predicate SameLength()
    {
      |temporada| == |insumo| == |q| == |demandaTotal| == |cte|
    }

    /** Row `i` read back across the five lists. */
    function RowOf(i: nat): RowQ
      requires SameLength() && i < |cte|
    {
      RowQ(temporada[i], insumo[i], q[i], demandaTotal[i], cte[i])
    }
  }

  const GridSize: nat := 20

  /** `numpy.linspace(lo, hi, n)`: start + i·step for i < n - 1, and `hi` itself last. */
  function Linspace(lo: real, hi: real, n: nat): (r: seq<real>)
    ensures |r| == n
    ensures n == 1 ==> r == [lo]
    ensures 1 < n ==> r[n - 1] == hi && forall i :: 0 <= i < n - 1 ==> r[i] == lo + (i as real) * ((hi - lo) / ((n - 1) as real))
  {
    if n == 0 then []
    else if n == 1 then [lo]
    else
      var step := (hi - lo) / ((n - 1) as real);
      seq(n, i requires 0 <= i < n => if i == n - 1 then hi else lo + (i as real) * step)
  }

  /** `generar_qs`: 20 evenly spaced lot sizes from v/4 to 4v. */
  function GenerarQs(v: real): (r: seq<real>)
    ensures |r| == GridSize
    ensures r[0] == v / 4.0 && r[GridSize - 1] == v * 4.0
    ensures forall i :: 0 <= i < GridSize - 1 ==> r[i + 1] - r[i] == (v * 4.0 - v / 4.0) / 19.0
  {
    var r := Linspace(v / 4.0, v * 4.0, GridSize);
    var step := (v * 4.0 - v / 4.0) / 19.0;
    assert forall i :: 0 <= i < GridSize - 1 ==> r[i] == v / 4.0 + (i as real) * step;
    r
  }

  /** For v > 0 the grid is strictly increasing and positive; for any v ≠ 0 no entry is
      zero, so no cost computed on it divides by zero. */
  lemma GridIsPositiveAndIncreasing(v: real)
    ensures 0.0 < v ==> forall i :: 0 <= i < GridSize ==> 0.0 < GenerarQs(v)[i]
    ensures 0.0 < v ==> forall i, j :: 0 <= i < j < GridSize ==> GenerarQs(v)[i] < GenerarQs(v)[j]
    ensures v != 0.0 ==> forall i :: 0 <= i < GridSize ==> GenerarQs(v)[i] != 0.0
  {
    var r := GenerarQs(v);
    var step := (v * 4.0 - v / 4.0) / 19.0;
    if 0.0 < v {
      forall i, j | 0 <= i < j < GridSize ensures r[i] < r[j] {
        IncreasingFrom(r, i, j, step);
      }
      assert forall i :: 0 < i < GridSize ==> r[0] < r[i];
    }
    if v < 0.0 {
      forall i, j | 0 <= i < j < GridSize ensures r[j] < r[i] {
        DecreasingFrom(r, i, j, step);
      }
      assert forall i :: 0 < i < GridSize ==> r[i] < r[0];
    }
  }

  lemma {:induction false} IncreasingFrom(r: seq<real>, i: nat, j: nat, step: real)
    requires i < j <= |r| - 1 && 0.0 < step
    requires forall k :: 0 <= k < |r| - 1 ==> r[k + 1] - r[k] == step
    ensures r[i] < r[j]
    decreases j - i
  {
    if i + 1 < j {
      IncreasingFrom(r, i + 1, j, step);
    }
  }

  lemma {:induction false} DecreasingFrom(r: seq<real>, i: nat, j: nat, step: real)
    requires i < j <= |r| - 1 && step < 0.0
    requires forall k :: 0 <= k < |r| - 1 ==> r[k + 1] - r[k] == step
    ensures r[j] < r[i]
    decreases j - i
  {
    if i + 1 < j {
      DecreasingFrom(r, i + 1, j, step);
    }
  }

  /** The five lists after appending `rows` one by one to empty lists. */
  function Columns(rows: seq<RowQ>): (r: ResultadosQ)
    ensures r.SameLength() && |r.cte| == |rows|
  {
    if |rows| == 0 then ResultadosQ([], [], [], [], [])
    else Columns(rows[..|rows| - 1]).Append(rows[|rows| - 1])
  }

  /** Row `i` of the lists is the `i`-th appended row. */
  lemma {:induction false} ColumnsAt(rows: seq<RowQ>, i: nat)
    requires i < |rows|
    ensures Columns(rows).RowOf(i) == rows[i]
  {
    if i < |rows| - 1 {
      ColumnsAt(rows[..|rows| - 1], i);
    }
  }

  lemma ColumnsSnoc(rows: seq<RowQ>, r: RowQ)
    ensures Columns(rows + [r]) == Columns(rows).Append(r)
  {
    assert (rows + [r])[..|rows|] == rows;
  }

  /** Every ingredient of the season has cost data and a non-zero season-1 lot size. */
  predicate CoveredSeason(s: Season, insumos: map<string, Supply>, q1: map<string, real>)
  {
    forall i :: 0 <= i < |s.demands| ==>
      s.demands[i].0 in insumos && s.demands[i].0 in q1 && q1[s.demands[i].0] != 0.0
  }

  predicate Covered(temporadas: seq<Season>, insumos: map<string, Supply>, q1: map<string, real>)
  {
    forall t :: 0 <= t < |temporadas| ==> CoveredSeason(temporadas[t], insumos, q1)
  }

  /** The row the innermost loop appends for season `s`, ingredient `insumo` with weekly
      mean demand `demandaMedia`, at grid value `q`. */
  function GridRow(s: Season, insumo: string, demandaMedia: real, sup: Supply, q: real): RowQ
    requires q != 0.0
  {
    var demandaTotal := demandaMedia * s.duration;
    RowQ(s.name, insumo, q, demandaTotal,
         CostModel.Cte(demandaTotal, CostModel.OrderCost, q, sup.c1, sup.b, sup.sp))
  }

  /** The 20 rows of one (season, ingredient) pair, in grid order. */
  function PairRows(s: Season, i: nat, insumos: map<string, Supply>, q1: map<string, real>): seq<RowQ>
    requires i < |s.demands| && CoveredSeason(s, insumos, q1)
  {
    var (insumo, demandaMedia) := s.demands[i];
    var qs := GenerarQs(q1[insumo]);
    GridIsPositiveAndIncreasing(q1[insumo]);
    seq(GridSize, j requires 0 <= j < GridSize => GridRow(s, insumo, demandaMedia, insumos[insumo], qs[j]))
  }

  function SeasonBlocks(s: Season, insumos: map<string, Supply>, q1: map<string, real>): seq<seq<RowQ>>
    requires CoveredSeason(s, insumos, q1)
  {
    seq(|s.demands|, i requires 0 <= i < |s.demands| => PairRows(s, i, insumos, q1))
  }

  function SeasonRows(temporadas: seq<Season>, insumos: map<string, Supply>, q1: map<string, real>): seq<seq<RowQ>>
    requires Covered(temporadas, insumos, q1)
  {
    seq(|temporadas|, t requires 0 <= t < |temporadas| => Concat(SeasonBlocks(temporadas[t], insumos, q1)))
  }

  /** Every row of the script, season by season, ingredient by ingredient, grid value by
      grid value. */
  function AllRows(temporadas: seq<Season>, insumos: map<string, Supply>, q1: map<string, real>): seq<RowQ>
    requires Covered(temporadas, insumos, q1)
  {
    Concat(SeasonRows(temporadas, insumos, q1))
  }

  /** The number of ingredients of each season. */
  function PairCounts(temporadas: seq<Season>): (r: seq<nat>)
    ensures |r| == |temporadas|
  {
    seq(|temporadas|, t requires 0 <= t < |temporadas| => |temporadas[t].demands|)
  }

  /** The number of (season, ingredient) pairs. */
  function PairCount(temporadas: seq<Season>): nat
  {
    SumNat(PairCounts(temporadas))
  }

  /** The innermost loop for the pair (season `s`, its `i`-th ingredient): appends the
      pair's 20 rows in grid order. */
  method AppendPair(res: ResultadosQ, ghost done: seq<RowQ>, s: Season, i: nat,
                    insumos: map<string, Supply>, valoresQ: map<int, map<string, real>>)
    returns (res': ResultadosQ)
    requires 1 in valoresQ && i < |s.demands| && CoveredSeason(s, insumos, valoresQ[1])
    requires res == Columns(done)
    ensures res' == Columns(done + PairRows(s, i, insumos, valoresQ[1]))
  {
    var (insumo, demandaMedia) := s.demands[i];
    var demandaTotal := demandaMedia * s.duration;
    var qValues := GenerarQs(valoresQ[1][insumo]);
    GridIsPositiveAndIncreasing(valoresQ[1][insumo]);
    ghost var pair := PairRows(s, i, insumos, valoresQ[1]);
    res' := res;
    var j := 0;
    assert done + pair[..0] == done;
    while j < |qValues|
      invariant 0 <= j <= |qValues|
      invariant res' == Columns(done + pair[..j])
    {
      var q := qValues[j];
      var b := insumos[insumo].b;
      var c1 := insumos[insumo].c1;
      var sp := insumos[insumo].sp;
      var k := CostModel.OrderCost;
      var cte := CostModel.Cte(demandaTotal, k, q, c1, b, sp);
      var row := RowQ(s.name, insumo, q, demandaTotal, cte);
      PairRowAt(s, i, insumos, valoresQ[1], j);
      assert row == pair[j];
      PairStep(done, s, i, insumos, valoresQ[1], j);
      res' := res'.Append(row);
      j := j + 1;
    }
    assert pair[..j] == pair;
  }

  /** Appending row j of a pair's rows extends the lists by that row. */
  lemma PairStep(done: seq<RowQ>, s: Season, i: nat, insumos: map<string, Supply>, q1: map<string, real>, j: nat)
    requires i < |s.demands| && CoveredSeason(s, insumos, q1) && j < GridSize
    ensures Columns(done + PairRows(s, i, insumos, q1)[..j + 1]) ==
      Columns(done + PairRows(s, i, insumos, q1)[..j]).Append(PairRows(s, i, insumos, q1)[j])
  {
    var pair := PairRows(s, i, insumos, q1);
    ColumnsSnoc(done + pair[..j], pair[j]);
    SnocPrefix(done, pair, j);
  }

  /** The loop over one season's ingredients, in the order of its dict. */
  method AppendSeason(res: ResultadosQ, ghost done: seq<RowQ>, s: Season,
                      insumos: map<string, Supply>, valoresQ: map<int, map<string, real>>)
    returns (res': ResultadosQ)
    requires 1 in valoresQ && CoveredSeason(s, insumos, valoresQ[1])
    requires res == Columns(done)
    ensures res' == Columns(done + Concat(SeasonBlocks(s, insumos, valoresQ[1])))
  {
    ghost var blocks := SeasonBlocks(s, insumos, valoresQ[1]);
    res' := res;
    var i := 0;
    assert done + Concat(blocks[..0]) == done;
    while i < |s.demands|
      invariant 0 <= i <= |s.demands|
      invariant res' == Columns(done + Concat(blocks[..i]))
    {
      res' := AppendPair(res', done + Concat(blocks[..i]), s, i, insumos, valoresQ);
      ConcatStepAfter(done, blocks, i);
      i := i + 1;
    }
    assert blocks[..i] == blocks;
  }

  /** The nested loops of the script: the five lists hold exactly `AllRows`, whose grid
      comes from `valores_q[1]` for every season. */
  method GridLoop(temporadas: seq<Season>, insumos: map<string, Supply>, valoresQ: map<int, map<string, real>>)
    returns (res: ResultadosQ)
    requires 1 in valoresQ && Covered(temporadas, insumos, valoresQ[1])
    ensures res == Columns(AllRows(temporadas, insumos, valoresQ[1]))
  {
    ghost var seasons := SeasonRows(temporadas, insumos, valoresQ[1]);
    res := ResultadosQ([], [], [], [], []);
    var t := 0;
    while t < |temporadas|
      invariant 0 <= t <= |temporadas|
      invariant res == Columns(Concat(seasons[..t]))
    {
      res := AppendSeason(res, Concat(seasons[..t]), temporadas[t], insumos, valoresQ);
      ConcatStep(seasons, t);
      t := t + 1;
    }
    assert seasons[..t] == seasons;
  }

  lemma SeasonLength(s: Season, insumos: map<string, Supply>, q1: map<string, real>)
    requires CoveredSeason(s, insumos, q1)
    ensures |Concat(SeasonBlocks(s, insumos, q1))| == GridSize * |s.demands|
  {
    ConcatUniformLength(SeasonBlocks(s, insumos, q1), GridSize);
  }

  /** The first `t` seasons contribute 20 rows per (season, ingredient) pair. */
  lemma RowsBeforeSeason(temporadas: seq<Season>, insumos: map<string, Supply>,
                         q1: map<string, real>, t: nat)
    requires Covered(temporadas, insumos, q1) && t <= |temporadas|
    ensures |Concat(SeasonRows(temporadas, insumos, q1)[..t])| == GridSize * PairCount(temporadas[..t])
  {
    var seasons := SeasonRows(temporadas, insumos, q1);
    var ws := PairCounts(temporadas);
    forall k | 0 <= k < |seasons| ensures |seasons[k]| == GridSize * ws[k] {
      SeasonLength(temporadas[k], insumos, q1);
    }
    ConcatScaledLength(seasons, ws, GridSize, t);
    assert PairCounts(temporadas[..t]) == ws[..t];
  }

  /** The lists end up with 20 rows per (season, ingredient) pair. */
  lemma AllRowsLength(temporadas: seq<Season>, insumos: map<string, Supply>, q1: map<string, real>)
    requires Covered(temporadas, insumos, q1)
    ensures |AllRows(temporadas, insumos, q1)| == GridSize * PairCount(temporadas)
  {
    RowsBeforeSeason(temporadas, insumos, q1, |temporadas|);
    assert SeasonRows(temporadas, insumos, q1)[..|temporadas|] == SeasonRows(temporadas, insumos, q1);
    assert temporadas[..|temporadas|] == temporadas;
  }

  /** Row j of the block for season t's i-th ingredient: the season's name, the ingredient,
      the j-th grid value built from season 1's lot size, mean demand × duration, and the
      cost with k = 30000 and the ingredient's own b, c1 and Sp. */
  lemma RowAt(temporadas: seq<Season>, insumos: map<string, Supply>, q1: map<string, real>,
              t: nat, i: nat, j: nat)
    requires Covered(temporadas, insumos, q1)
    requires t < |temporadas| && i < |temporadas[t].demands| && j < GridSize
    ensures var n := GridSize * PairCount(temporadas[..t]) + GridSize * i + j;
      var insumo := temporadas[t].demands[i].0;
      var demandaMedia := temporadas[t].demands[i].1;
      var q := GenerarQs(q1[insumo])[j];
      var sup := insumos[insumo];
      n < |AllRows(temporadas, insumos, q1)| &&
      q != 0.0 &&
      AllRows(temporadas, insumos, q1)[n] ==
        RowQ(temporadas[t].name, insumo, q, demandaMedia * temporadas[t].duration,
             CostModel.Cte(demandaMedia * temporadas[t].duration, CostModel.OrderCost, q, sup.c1, sup.b, sup.sp))
  {
    PairRowsInAllRows(temporadas, insumos, q1, t, i, j);
    PairRowAt(temporadas[t], i, insumos, q1, j);
  }

  /** Row j of the block for season t's i-th ingredient sits at 20·(pairs before season t)
      + 20·i + j. */
  lemma PairRowsInAllRows(temporadas: seq<Season>, insumos: map<string, Supply>, q1: map<string, real>,
                          t: nat, i: nat, j: nat)
    requires Covered(temporadas, insumos, q1)
    requires t < |temporadas| && i < |temporadas[t].demands| && j < GridSize
    ensures GridSize * PairCount(temporadas[..t]) + GridSize * i + j < |AllRows(temporadas, insumos, q1)|
    ensures AllRows(temporadas, insumos, q1)[GridSize * PairCount(temporadas[..t]) + GridSize * i + j] ==
      PairRows(temporadas[t], i, insumos, q1)[j]
  {
    SeasonRowAt(temporadas[t], insumos, q1, i, j);
    AllRowsAt(temporadas, insumos, q1, t, GridSize * i + j);
  }

  /** Position `k` of season `t`'s rows sits after the 20 rows of every pair of the
      earlier seasons. */
  lemma AllRowsAt(temporadas: seq<Season>, insumos: map<string, Supply>, q1: map<string, real>,
                  t: nat, k: nat)
    requires Covered(temporadas, insumos, q1) && t < |temporadas|
    requires k < |Concat(SeasonBlocks(temporadas[t], insumos, q1))|
    ensures GridSize * PairCount(temporadas[..t]) + k < |AllRows(temporadas, insumos, q1)|
    ensures AllRows(temporadas, insumos, q1)[GridSize * PairCount(temporadas[..t]) + k] ==
      Concat(SeasonBlocks(temporadas[t], insumos, q1))[k]
  {
    var seasons := SeasonRows(temporadas, insumos, q1);
    assert seasons[t] == Concat(SeasonBlocks(temporadas[t], insumos, q1));
    ConcatAt(seasons, t, k);
    RowsBeforeSeason(temporadas, insumos, q1, t);
  }

  /** Grid value j of a pair's rows. */
  lemma PairRowAt(s: Season, i: nat, insumos: map<string, Supply>, q1: map<string, real>, j: nat)
    requires CoveredSeason(s, insumos, q1) && i < |s.demands| && j < GridSize
    ensures var insumo := s.demands[i].0;
      var q := GenerarQs(q1[insumo])[j];
      var sup := insumos[insumo];
      q != 0.0 &&
      PairRows(s, i, insumos, q1)[j] ==
        RowQ(s.name, insumo, q, s.demands[i].1 * s.duration,
             CostModel.Cte(s.demands[i].1 * s.duration, CostModel.OrderCost, q, sup.c1, sup.b, sup.sp))
  {
    GridIsPositiveAndIncreasing(q1[s.demands[i].0]);
  }

  /** Position 20·i + j of a season's rows is grid value j of its i-th ingredient. */
  lemma SeasonRowAt(s: Season, insumos: map<string, Supply>, q1: map<string, real>, i: nat, j: nat)
    requires CoveredSeason(s, insumos, q1) && i < |s.demands| && j < GridSize
    ensures GridSize * i + j < |Concat(SeasonBlocks(s, insumos, q1))|
    ensures Concat(SeasonBlocks(s, insumos, q1))[GridSize * i + j] == PairRows(s, i, insumos, q1)[j]
  {
    var blocks := SeasonBlocks(s, insumos, q1);
    ConcatAt(blocks, i, j);
    UniformBlockStart(blocks, GridSize, i);
    SeasonLength(s, insumos, q1);
  }
}
