/** `sensitivity_analysis_d.py`: the expected total cost for sampled season demands, at
    every previously computed lot-size set, for every season and ingredient. The normal
    samples are an input. */
module SensitivityD {
  import opened Common
  import CostModel

  /** Mean and standard deviation of an ingredient's weekly demand; they only feed the
      sampler, which is not part of this model. */
  datatype DemandStats = DemandStats(media: real, de: real)

  datatype Season = Season(name: string, duration: real, demands: seq<(string, DemandStats)>)

  /** An ingredient's cost data: unit acquisition cost b, unit holding cost c1, protective
      stock Sp. */
  datatype Supply = Supply(b: real, c1: real, sp: real)

  /** One appended row. The `q` column holds the key of the lot-size set, not the lot size. */
  datatype RowD = RowD(temporada: string, insumo: string, q: int, muestra: int,
                       demandaTotal: real, cte: real)

  /** The dict of six lists `resultados`. */
  datatype Resultados = Resultados(temporada: seq<string>, insumo: seq<string>, q: seq<int>,
                                   muestra: seq<int>, demandaTotal: seq<real>, cte: seq<real>)
  {
    /** The six `append` calls for one row. */
    function Append(r: RowD): Resultados
    {
      Resultados(temporada + [r.temporada], insumo + [r.insumo], q + [r.q], muestra + [r.muestra],
                 demandaTotal + [r.demandaTotal], cte + [r.cte])
    }

    predicate SameLength()
    {
      |temporada| == |insumo| == |q| == |muestra| == |demandaTotal| == |cte|
    }

    /** Row `i` read back across the six lists. */
    function RowOf(i: nat): RowD
      requires SameLength() && i < |cte|
    {
      RowD(temporada[i], insumo[i], q[i], muestra[i], demandaTotal[i], cte[i])
    }
  }

  /** The six lists after appending `rows` one by one to empty lists; they have equal
      length and row `i` reads back as `rows[i]`. */
  function Columns(rows: seq<RowD>): (r: Resultados)
    ensures r.SameLength() && |r.cte| == |rows|
  {
    if |rows| == 0 then Resultados([], [], [], [], [], [])
    else Columns(rows[..|rows| - 1]).Append(rows[|rows| - 1])
  }

  /** Row `i` of the lists is the `i`-th appended row. */
  lemma {:induction false} ColumnsAt(rows: seq<RowD>, i: nat)
    requires i < |rows|
    ensures Columns(rows).RowOf(i) == rows[i]
  {
    if i < |rows| - 1 {
      ColumnsAt(rows[..|rows| - 1], i);
    }
  }

  lemma ColumnsSnoc(rows: seq<RowD>, r: RowD)
    ensures Columns(rows + [r]) == Columns(rows).Append(r)
  {
    assert (rows + [r])[..|rows|] == rows;
  }

  /** The lot-size sets `valores_q`, in the order of the dict (keys distinct). */
  type LotSets = seq<(int, map<string, real>)>

  /** The set holds a non-zero lot size for the ingredient. */
  predicate HasLotSize(valores: map<string, real>, insumo: string)
  {
    insumo in valores && valores[insumo] != 0.0
  }

  /** Every ingredient of the season has cost data and a non-zero lot size in every set. */
  predicate CoveredSeason(s: Season, insumos: map<string, Supply>, valoresQ: LotSets)
  {
    (forall i :: 0 <= i < |s.demands| ==> s.demands[i].0 in insumos) &&
    forall i, qi :: 0 <= i < |s.demands| && 0 <= qi < |valoresQ| ==> HasLotSize(valoresQ[qi].1, s.demands[i].0)
  }

  /** The samples drawn for one season: one list of `n` samples per ingredient. */
  predicate SamplesFit(s: Season, muestras: seq<seq<real>>, n: nat)
  {
    |muestras| == |s.demands| && forall i :: 0 <= i < |muestras| ==> |muestras[i]| == n
  }

  predicate Covered(temporadas: seq<Season>, insumos: map<string, Supply>, valoresQ: LotSets,
                    muestras: seq<seq<seq<real>>>, n: nat)
  {
    |muestras| == |temporadas| &&
    forall t :: 0 <= t < |temporadas| ==>
      CoveredSeason(temporadas[t], insumos, valoresQ) && SamplesFit(temporadas[t], muestras[t], n)
  }

  /** The `n` rows of one set for one (season, ingredient) pair: sample `m` is row m,
      numbered m + 1, with total demand sample × duration. */
  function SetRows(s: Season, i: nat, qi: nat, insumos: map<string, Supply>, valoresQ: LotSets,
                   muestras: seq<real>): seq<RowD>
    requires i < |s.demands| && qi < |valoresQ| && CoveredSeason(s, insumos, valoresQ)
  {
    var insumo := s.demands[i].0;
    var (qId, valores) := valoresQ[qi];
    var sup := insumos[insumo];
    seq(|muestras|, m requires 0 <= m < |muestras| =>
      RowD(s.name, insumo, qId, m + 1, muestras[m] * s.duration,
           CostModel.Cte(muestras[m] * s.duration, CostModel.OrderCost, valores[insumo], sup.c1, sup.b, sup.sp)))
  }

  /** The rows of one (season, ingredient) pair: the same samples at every set, set by set. */
  function PairBlocks(s: Season, i: nat, insumos: map<string, Supply>, valoresQ: LotSets,
                      muestras: seq<real>): seq<seq<RowD>>
    requires i < |s.demands| && CoveredSeason(s, insumos, valoresQ)
  {
    seq(|valoresQ|, qi requires 0 <= qi < |valoresQ| => SetRows(s, i, qi, insumos, valoresQ, muestras))
  }

  function SeasonBlocks(s: Season, insumos: map<string, Supply>, valoresQ: LotSets,
                        muestras: seq<seq<real>>): seq<seq<RowD>>
    requires CoveredSeason(s, insumos, valoresQ) && |muestras| == |s.demands|
  {
    seq(|s.demands|, i requires 0 <= i < |s.demands| => Concat(PairBlocks(s, i, insumos, valoresQ, muestras[i])))
  }

  function SeasonRows(temporadas: seq<Season>, insumos: map<string, Supply>, valoresQ: LotSets,
                      muestras: seq<seq<seq<real>>>, n: nat): seq<seq<RowD>>
    requires Covered(temporadas, insumos, valoresQ, muestras, n)
  {
    seq(|temporadas|, t requires 0 <= t < |temporadas| =>
      Concat(SeasonBlocks(temporadas[t], insumos, valoresQ, muestras[t])))
  }

  /** Every row of `generar_resultados`: season, ingredient, set, sample. */
  function AllRows(temporadas: seq<Season>, insumos: map<string, Supply>, valoresQ: LotSets,
                   muestras: seq<seq<seq<real>>>, n: nat): seq<RowD>
    requires Covered(temporadas, insumos, valoresQ, muestras, n)
  {
    Concat(SeasonRows(temporadas, insumos, valoresQ, muestras, n))
  }

  /** The innermost loop, `for i, muestra in enumerate(muestras)`, for one set. */
  method AppendSet(res: Resultados, ghost done: seq<RowD>, s: Season, i: nat, qi: nat,
                   insumos: map<string, Supply>, valoresQ: LotSets, muestras: seq<real>)
    returns (res': Resultados)
    requires i < |s.demands| && qi < |valoresQ| && CoveredSeason(s, insumos, valoresQ)
    requires res == Columns(done)
    ensures res' == Columns(done + SetRows(s, i, qi, insumos, valoresQ, muestras))
  {
    var insumo := s.demands[i].0;
    var (qId, valores) := valoresQ[qi];
    var q := valores[insumo];
    ghost var rows := SetRows(s, i, qi, insumos, valoresQ, muestras);
    res' := res;
    var m := 0;
    assert done + rows[..0] == done;
    while m < |muestras|
      invariant 0 <= m <= |muestras|
      invariant res' == Columns(done + rows[..m])
    {
      var muestra := muestras[m];
      var demandaTotal := muestra * s.duration;
      var cte := CostModel.Cte(demandaTotal, CostModel.OrderCost, q, insumos[insumo].c1, insumos[insumo].b, insumos[insumo].sp);
      var row := RowD(s.name, insumo, qId, m + 1, demandaTotal, cte);
      SetRowAt(s, i, qi, insumos, valoresQ, muestras, m);
      assert row == rows[m];
      SetStep(done, rows, m);
      res' := res'.Append(row);
      m := m + 1;
    }
    assert rows[..m] == rows;
  }

  /** Appending row m of a block extends the lists by that row. */
  lemma SetStep(done: seq<RowD>, rows: seq<RowD>, m: nat)
    requires m < |rows|
    ensures Columns(done + rows[..m + 1]) == Columns(done + rows[..m]).Append(rows[m])
  {
    ColumnsSnoc(done + rows[..m], rows[m]);
    SnocPrefix(done, rows, m);
  }

  /** `for q_id, valores in valores_q.items()`, reusing one pair's samples for every set. */
  method AppendPair(res: Resultados, ghost done: seq<RowD>, s: Season, i: nat,
                    insumos: map<string, Supply>, valoresQ: LotSets, muestras: seq<real>)
    returns (res': Resultados)
    requires i < |s.demands| && CoveredSeason(s, insumos, valoresQ)
    requires res == Columns(done)
    ensures res' == Columns(done + Concat(PairBlocks(s, i, insumos, valoresQ, muestras)))
  {
    ghost var blocks := PairBlocks(s, i, insumos, valoresQ, muestras);
    res' := res;
    var qi := 0;
    assert done + Concat(blocks[..0]) == done;
    while qi < |valoresQ|
      invariant 0 <= qi <= |valoresQ|
      invariant res' == Columns(done + Concat(blocks[..qi]))
    {
      res' := AppendSet(res', done + Concat(blocks[..qi]), s, i, qi, insumos, valoresQ, muestras);
      assert blocks[qi] == SetRows(s, i, qi, insumos, valoresQ, muestras);
      ConcatStepAfter(done, blocks, qi);
      qi := qi + 1;
    }
    assert blocks[..qi] == blocks;
  }

  /** The loop over one season's ingredients, each with its own list of samples. */
  method AppendSeason(res: Resultados, ghost done: seq<RowD>, s: Season,
                      insumos: map<string, Supply>, valoresQ: LotSets, muestras: seq<seq<real>>)
    returns (res': Resultados)
    requires CoveredSeason(s, insumos, valoresQ) && |muestras| == |s.demands|
    requires res == Columns(done)
    ensures res' == Columns(done + Concat(SeasonBlocks(s, insumos, valoresQ, muestras)))
  {
    ghost var blocks := SeasonBlocks(s, insumos, valoresQ, muestras);
    res' := res;
    var i := 0;
    assert done + Concat(blocks[..0]) == done;
    while i < |s.demands|
      invariant 0 <= i <= |s.demands|
      invariant res' == Columns(done + Concat(blocks[..i]))
    {
      res' := AppendPair(res', done + Concat(blocks[..i]), s, i, insumos, valoresQ, muestras[i]);
      ConcatStepAfter(done, blocks, i);
      i := i + 1;
    }
    assert blocks[..i] == blocks;
  }

  /** `generar_resultados` with the samples given: the six lists hold exactly `AllRows`. */
  method GenerarResultados(temporadas: seq<Season>, insumos: map<string, Supply>, valoresQ: LotSets,
                           muestras: seq<seq<seq<real>>>, muestrasPorTemporada: nat)
    returns (res: Resultados)
    requires Covered(temporadas, insumos, valoresQ, muestras, muestrasPorTemporada)
    ensures res == Columns(AllRows(temporadas, insumos, valoresQ, muestras, muestrasPorTemporada))
  {
    ghost var seasons := SeasonRows(temporadas, insumos, valoresQ, muestras, muestrasPorTemporada);
    res := Resultados([], [], [], [], [], []);
    var t := 0;
    while t < |temporadas|
      invariant 0 <= t <= |temporadas|
      invariant res == Columns(Concat(seasons[..t]))
    {
      res := AppendSeason(res, Concat(seasons[..t]), temporadas[t], insumos, valoresQ, muestras[t]);
      ConcatStep(seasons, t);
      t := t + 1;
    }
    assert seasons[..t] == seasons;
  }

  /** The number of ingredients of each season. */
  function PairCounts(temporadas: seq<Season>): (r: seq<nat>)
    ensures |r| == |temporadas|
  {
    seq(|temporadas|, t requires 0 <= t < |temporadas| => |temporadas[t].demands|)
  }

  /** The number of (season, ingredient) pairs. */
  function PairCount(temporadas: seq<Season>): nat
  {
    SumNat(PairCounts(temporadas))
  }

  lemma PairLength(s: Season, i: nat, insumos: map<string, Supply>, valoresQ: LotSets, muestras: seq<real>)
    requires i < |s.demands| && CoveredSeason(s, insumos, valoresQ)
    ensures |Concat(PairBlocks(s, i, insumos, valoresQ, muestras))| == |valoresQ| * |muestras|
  {
    ConcatUniformLength(PairBlocks(s, i, insumos, valoresQ, muestras), |muestras|);
  }

  lemma SeasonLength(s: Season, insumos: map<string, Supply>, valoresQ: LotSets, muestras: seq<seq<real>>, n: nat)
    requires CoveredSeason(s, insumos, valoresQ) && SamplesFit(s, muestras, n)
    ensures |Concat(SeasonBlocks(s, insumos, valoresQ, muestras))| == |valoresQ| * n * |s.demands|
  {
    var blocks := SeasonBlocks(s, insumos, valoresQ, muestras);
    forall i | 0 <= i < |blocks| ensures |blocks[i]| == |valoresQ| * n {
      PairLength(s, i, insumos, valoresQ, muestras[i]);
    }
    ConcatUniformLength(blocks, |valoresQ| * n);
  }

  /** The first `t` seasons contribute |valores_q| × n rows per (season, ingredient) pair. */
  lemma RowsBeforeSeason(temporadas: seq<Season>, insumos: map<string, Supply>,
                         valoresQ: LotSets, muestras: seq<seq<seq<real>>>, n: nat, t: nat)
    requires Covered(temporadas, insumos, valoresQ, muestras, n) && t <= |temporadas|
    ensures |Concat(SeasonRows(temporadas, insumos, valoresQ, muestras, n)[..t])| ==
            |valoresQ| * n * PairCount(temporadas[..t])
  {
    var seasons := SeasonRows(temporadas, insumos, valoresQ, muestras, n);
    var ws := PairCounts(temporadas);
    forall k | 0 <= k < |seasons| ensures |seasons[k]| == |valoresQ| * n * ws[k] {
      SeasonLength(temporadas[k], insumos, valoresQ, muestras[k], n);
    }
    ConcatScaledLength(seasons, ws, |valoresQ| * n, t);
    assert PairCounts(temporadas[..t]) == ws[..t];
  }

  /** Each (season, ingredient) pair contributes |valores_q| × n rows. */
  lemma AllRowsLength(temporadas: seq<Season>, insumos: map<string, Supply>, valoresQ: LotSets,
                      muestras: seq<seq<seq<real>>>, n: nat)
    requires Covered(temporadas, insumos, valoresQ, muestras, n)
    ensures |AllRows(temporadas, insumos, valoresQ, muestras, n)| == |valoresQ| * n * PairCount(temporadas)
  {
    RowsBeforeSeason(temporadas, insumos, valoresQ, muestras, n, |temporadas|);
    assert SeasonRows(temporadas, insumos, valoresQ, muestras, n)[..|temporadas|] ==
           SeasonRows(temporadas, insumos, valoresQ, muestras, n);
    assert temporadas[..|temporadas|] == temporadas;
  }

  /** Where the row for lot-size set qi, sample m of a season's i-th ingredient lands when
      `pairs` (season, ingredient) pairs come before the season, with `sets` lot-size sets
      and `n` samples per ingredient. */
  function RowIndex(sets: nat, n: nat, pairs: nat, i: nat, qi: nat, m: nat): nat
  {
    sets * n * pairs + (sets * n * i + n * qi + m)
  }

  /** The row for season t, its i-th ingredient, lot-size set qi and sample m: it sits at
      position |valores_q|·n·(pairs of earlier seasons) + |valores_q|·n·i + n·qi + m and holds
      the season's name, the ingredient, the set key, the sample number m + 1, the sample
      × duration and the cost at that set's lot size. */
  lemma RowAt(temporadas: seq<Season>, insumos: map<string, Supply>, valoresQ: LotSets,
              muestras: seq<seq<seq<real>>>, n: nat, t: nat, i: nat, qi: nat, m: nat)
    requires Covered(temporadas, insumos, valoresQ, muestras, n)
    requires t < |temporadas| && i < |temporadas[t].demands| && qi < |valoresQ| && m < n
    ensures RowIndex(|valoresQ|, n, PairCount(temporadas[..t]), i, qi, m) <
      |AllRows(temporadas, insumos, valoresQ, muestras, n)|
    ensures var s := temporadas[t];
      var insumo := s.demands[i].0;
      var sup := insumos[insumo];
      var d := muestras[t][i][m] * s.duration;
      AllRows(temporadas, insumos, valoresQ, muestras, n)[RowIndex(|valoresQ|, n, PairCount(temporadas[..t]), i, qi, m)] ==
        RowD(s.name, insumo, valoresQ[qi].0, m + 1, d,
             CostModel.Cte(d, CostModel.OrderCost, valoresQ[qi].1[insumo], sup.c1, sup.b, sup.sp))
  {
    SetRowInAllRows(temporadas, insumos, valoresQ, muestras, n, t, i, qi, m);
    SetRowAt(temporadas[t], i, qi, insumos, valoresQ, muestras[t][i], m);
  }

  /** Sample m of set qi for season t's i-th ingredient sits at `RowIndex`. */
  lemma SetRowInAllRows(temporadas: seq<Season>, insumos: map<string, Supply>, valoresQ: LotSets,
                        muestras: seq<seq<seq<real>>>, n: nat, t: nat, i: nat, qi: nat, m: nat)
    requires Covered(temporadas, insumos, valoresQ, muestras, n)
    requires t < |temporadas| && i < |temporadas[t].demands| && qi < |valoresQ| && m < n
    ensures RowIndex(|valoresQ|, n, PairCount(temporadas[..t]), i, qi, m) <
      |AllRows(temporadas, insumos, valoresQ, muestras, n)|
    ensures AllRows(temporadas, insumos, valoresQ, muestras, n)[RowIndex(|valoresQ|, n, PairCount(temporadas[..t]), i, qi, m)] ==
      SetRows(temporadas[t], i, qi, insumos, valoresQ, muestras[t][i])[m]
  {
    SeasonRowAt(temporadas[t], insumos, valoresQ, muestras[t], n, i, qi, m);
    MulNonNegative(|valoresQ|, n);
    MulNonNegative(|valoresQ| * n, i);
    MulNonNegative(n, qi);
    AllRowsAt(temporadas, insumos, valoresQ, muestras, n, t, |valoresQ| * n * i + n * qi + m);
  }

  /** Position j of season t's rows sits after |valores_q| × n rows per (season,
      ingredient) pair of the seasons before it; `SeasonRowAt` says which row of the season
      is at j and `SetRowAt` what it holds. */
  lemma AllRowsAt(temporadas: seq<Season>, insumos: map<string, Supply>, valoresQ: LotSets,
                  muestras: seq<seq<seq<real>>>, n: nat, t: nat, j: nat)
    requires Covered(temporadas, insumos, valoresQ, muestras, n)
    requires t < |temporadas| && j < |Concat(SeasonBlocks(temporadas[t], insumos, valoresQ, muestras[t]))|
    ensures |valoresQ| * n * PairCount(temporadas[..t]) + j < |AllRows(temporadas, insumos, valoresQ, muestras, n)|
    ensures AllRows(temporadas, insumos, valoresQ, muestras, n)[|valoresQ| * n * PairCount(temporadas[..t]) + j] ==
      Concat(SeasonBlocks(temporadas[t], insumos, valoresQ, muestras[t]))[j]
  {
    var seasons := SeasonRows(temporadas, insumos, valoresQ, muestras, n);
    RowsBeforeSeason(temporadas, insumos, valoresQ, muestras, n, t);
    assert BlockStart(seasons, t) == |valoresQ| * n * PairCount(temporadas[..t]);
    assert seasons[t] == Concat(SeasonBlocks(temporadas[t], insumos, valoresQ, muestras[t]));
    ConcatAt(seasons, t, j);
  }

  /** Sample m of set qi: the set key in the `q` column (not the lot size), number m + 1,
      total demand sample × duration, and the cost with k = 30000, that set's lot size for
      the ingredient and the ingredient's own c1, b and Sp. */
  lemma SetRowAt(s: Season, i: nat, qi: nat, insumos: map<string, Supply>, valoresQ: LotSets,
                 muestras: seq<real>, m: nat)
    requires i < |s.demands| && qi < |valoresQ| && CoveredSeason(s, insumos, valoresQ) && m < |muestras|
    ensures var insumo := s.demands[i].0;
      var sup := insumos[insumo];
      var d := muestras[m] * s.duration;
      SetRows(s, i, qi, insumos, valoresQ, muestras)[m] ==
        RowD(s.name, insumo, valoresQ[qi].0, m + 1, d,
             CostModel.Cte(d, CostModel.OrderCost, valoresQ[qi].1[insumo], sup.c1, sup.b, sup.sp))
  {
    var rows := SetRows(s, i, qi, insumos, valoresQ, muestras);
    var insumo := s.demands[i].0;
    var (qId, valores) := valoresQ[qi];
    assert valores == valoresQ[qi].1 && qId == valoresQ[qi].0;
    var sup := insumos[insumo];
    var d := muestras[m] * s.duration;
    var cte := CostModel.Cte(d, CostModel.OrderCost, valores[insumo], sup.c1, sup.b, sup.sp);
    assert rows[m] == RowD(s.name, insumo, qId, m + 1, d, cte);
  }

  /** Position `n * qi + m` of a pair's rows is sample m of set qi. */
  lemma PairRowAt(s: Season, i: nat, insumos: map<string, Supply>, valoresQ: LotSets,
                  muestras: seq<real>, qi: nat, m: nat)
    requires i < |s.demands| && CoveredSeason(s, insumos, valoresQ)
    requires qi < |valoresQ| && m < |muestras|
    ensures |Concat(PairBlocks(s, i, insumos, valoresQ, muestras))| == |valoresQ| * |muestras|
    ensures |muestras| * qi + m < |valoresQ| * |muestras|
    ensures Concat(PairBlocks(s, i, insumos, valoresQ, muestras))[|muestras| * qi + m] ==
            SetRows(s, i, qi, insumos, valoresQ, muestras)[m]
  {
    var sets := PairBlocks(s, i, insumos, valoresQ, muestras);
    ConcatAt(sets, qi, m);
    UniformBlockStart(sets, |muestras|, qi);
    PairLength(s, i, insumos, valoresQ, muestras);
  }

  /** Position `c * i + n * qi + m` of a season's rows (c = |valores_q| × n) is sample m of
      set qi for its i-th ingredient. */
  lemma SeasonRowAt(s: Season, insumos: map<string, Supply>, valoresQ: LotSets,
                    muestras: seq<seq<real>>, n: nat, i: nat, qi: nat, m: nat)
    requires CoveredSeason(s, insumos, valoresQ) && SamplesFit(s, muestras, n)
    requires i < |s.demands| && qi < |valoresQ| && m < n
    ensures |Concat(SeasonBlocks(s, insumos, valoresQ, muestras))| == |valoresQ| * n * |s.demands|
    ensures |valoresQ| * n * i + n * qi + m < |valoresQ| * n * |s.demands|
    ensures var rows := Concat(SeasonBlocks(s, insumos, valoresQ, muestras));
      var k := |valoresQ| * n * i + n * qi + m;
      k < |rows| && rows[k] == SetRows(s, i, qi, insumos, valoresQ, muestras[i])[m]
  {
    var blocks := SeasonBlocks(s, insumos, valoresQ, muestras);
    var c := |valoresQ| * n;
    forall k | 0 <= k < |blocks| ensures |blocks[k]| == c {
      PairLength(s, k, insumos, valoresQ, muestras[k]);
    }
    PairRowAt(s, i, insumos, valoresQ, muestras[i], qi, m);
    ConcatAt(blocks, i, n * qi + m);
    UniformBlockStart(blocks, c, i);
    SeasonLength(s, insumos, valoresQ, muestras, n);
    assert c * (i + 1) == c * i + c;
    MulMonotone(c, i + 1, |s.demands|);
  }

  lemma MulNonNegative(a: int, b: int)
    requires 0 <= a && 0 <= b
    ensures 0 <= a * b
  {
  }

  lemma MulMonotone(c: nat, x: nat, y: nat)
    requires x <= y
    ensures c * x <= c * y
  {
  }
}
