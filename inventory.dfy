/** `modelo_inventario`: the per-ingredient EOQ policy (lot size, reorder interval,
    reorder stock, maximum stock, expected total cost). */
module Inventory {
  import opened Common
  import CostModel

  /** One ingredient's entry: demand D, unit acquisition cost b, unit holding cost c1. */
  datatype Ingredient = Ingredient(d: real, b: real, c1: real)

  /** The five figures the source stores per ingredient. */
  datatype Policy = Policy(q: real, t: real, sr: real, s: real, cte: real)

  /** `math.sqrt(x)`, the square root the caller supplies. */
  function Root(sqrt: real -> real, x: real): real
  {
    sqrt(x)
  }

  /** What `math.sqrt` promises: a non-negative root of every non-negative argument. */
  ghost predicate SqrtSpec(sqrt: real -> real)
  {
    forall x :: 0.0 <= x ==> 0.0 <= Root(sqrt, x) && Root(sqrt, x) * Root(sqrt, x) == x
  }

  /** The argument of the square root, 2·D·k/c1. */
  function RootArgument(p: Ingredient, k: real): real
    requires p.c1 != 0.0
  {
    2.0 * p.d * k / p.c1
  }

  /** The condition under which the body of the loop raises nothing: c1 is non-zero, the
      root's argument 2·D·k/c1 is non-negative, D is non-zero and so is the root. */
  predicate Computable(p: Ingredient, k: real, sqrt: real -> real)
  {
    p.c1 != 0.0 && 0.0 <= RootArgument(p, k) && p.d != 0.0 && Root(sqrt, RootArgument(p, k)) != 0.0
  }

  /** A positive root of 2·D·k/c1 needs a non-zero k, and a zero root a zero k. */
  lemma RootZeroIffOrderCostZero(d: real, k: real, c1: real, q: real)
    requires c1 != 0.0 && d != 0.0 && 0.0 <= q && q * q == 2.0 * d * k / c1
    ensures q == 0.0 <==> k == 0.0
  {
    var x := 2.0 * d * k / c1;
    if q == 0.0 {
      assert x == 0.0;
      assert 2.0 * d * k == x * c1;
    } else {
      assert q == x / q;
      assert 0.0 < x;
    }
  }

  /** With a true square root the computation fails only on c1 = 0, a negative argument,
      D = 0 or k = 0. */
  lemma ComputableIff(p: Ingredient, k: real, sqrt: real -> real)
    requires SqrtSpec(sqrt)
    ensures Computable(p, k, sqrt) <==> p.c1 != 0.0 && 0.0 <= RootArgument(p, k) && p.d != 0.0 && k != 0.0
  {
    if p.c1 != 0.0 && 0.0 <= RootArgument(p, k) && p.d != 0.0 {
      RootZeroIffOrderCostZero(p.d, k, p.c1, Root(sqrt, RootArgument(p, k)));
    }
  }

  /** The body of the loop for one ingredient, with the exception the first failing
      line raises: c1 = 0 divides by zero in the lot size, a negative argument is a math
      domain error, D = 0 divides by zero in the interval, and a zero lot size divides by
      zero in the cost. */
  function ComputePolicy(p: Ingredient, k: real, sp: real, lt: real, sqrt: real -> real): (r: Result<Policy>)
    ensures r.Ok? <==> Computable(p, k, sqrt)
    ensures r.Err? ==> r.error == (if p.c1 != 0.0 && RootArgument(p, k) < 0.0 then MathDomainError else ZeroDivisionError)
    ensures r.Ok? ==> r.value == MakePolicy(p, k, sp, lt, Root(sqrt, RootArgument(p, k)))
  {
    if p.c1 == 0.0 then Err(ZeroDivisionError)
    else
      var x := RootArgument(p, k);
      if x < 0.0 then Err(MathDomainError)
      else
        var q := Root(sqrt, x);
        if p.d == 0.0 then Err(ZeroDivisionError)
        else if q == 0.0 then Err(ZeroDivisionError)
        else Ok(MakePolicy(p, k, sp, lt, q))
  }

  /** The five figures stored for lot size q: q itself, the reorder interval (which times D
      is the lot size), the reorder stock D·LT + Sp, the maximum stock (which exceeds the
      lot size by Sp) and the expected total cost at q. */
  function MakePolicy(p: Ingredient, k: real, sp: real, lt: real, q: real): (r: Policy)
    requires p.d != 0.0 && q != 0.0
    ensures r.q == q && r.t * p.d == q && r.sr == p.d * lt + sp && r.s - q == sp
    ensures r.cte == CostModel.Cte(p.d, k, q, p.c1, p.b, sp)
  {
    Policy(q, q / p.d, p.d * lt + sp, q + sp, CostModel.Cte(p.d, k, q, p.c1, p.b, sp))
  }

  /** A computed policy holds the EOQ lot size √(2·D·k/c1) (positive), the interval q/D,
      the reorder stock D·LT + Sp, the maximum stock q + Sp and the expected total cost at
      that lot size. */
  lemma PolicyFormulas(p: Ingredient, k: real, sp: real, lt: real, sqrt: real -> real)
    requires SqrtSpec(sqrt) && Computable(p, k, sqrt)
    ensures var r := ComputePolicy(p, k, sp, lt, sqrt).value;
      0.0 < r.q && CostModel.IsLotSize(r.q, p.d, k, p.c1) &&
      r.t * p.d == r.q && r.sr == p.d * lt + sp && r.s - r.q == sp &&
      r.cte == CostModel.Cte(p.d, k, r.q, p.c1, p.b, sp)
  {
    var x := RootArgument(p, k);
    var q := Root(sqrt, x);
    assert 0.0 <= q && q * q == x;
    assert x == 2.0 * p.d * k / p.c1;
    var r := MakePolicy(p, k, sp, lt, q);
    assert ComputePolicy(p, k, sp, lt, sqrt) == Ok(r);
    assert CostModel.IsLotSize(q, p.d, k, p.c1);
  }

  /** With positive D, k and c1 the loop body succeeds, q is positive, S ≥ Sp, and the
      cost exceeds b·D + Sp·c1. */
  lemma PositiveInputsGivePolicy(p: Ingredient, k: real, sp: real, lt: real, sqrt: real -> real)
    requires SqrtSpec(sqrt)
    requires 0.0 < p.d && 0.0 < k && 0.0 < p.c1 && 0.0 <= sp
    ensures ComputePolicy(p, k, sp, lt, sqrt).Ok?
    ensures 0.0 < ComputePolicy(p, k, sp, lt, sqrt).value.q
    ensures ComputePolicy(p, k, sp, lt, sqrt).value.s >= sp
    ensures ComputePolicy(p, k, sp, lt, sqrt).value.cte > p.b * p.d + sp * p.c1
    ensures 0.0 < ComputePolicy(p, k, sp, lt, sqrt).value.t
  {
    assert 0.0 < p.d * k;
    assert 0.0 <= RootArgument(p, k);
    ComputableIff(p, k, sqrt);
    var r := ComputePolicy(p, k, sp, lt, sqrt).value;
    PolicyFormulas(p, k, sp, lt, sqrt);
    CostModel.CteExceedsFixedPart(p.d, k, r.q, p.c1, p.b, sp);
    assert r.t * p.d == r.q;
  }

  /** The reorder stock is at least the protective stock when D and the lead time are
      non-negative. */
  lemma ReorderStockCoversProtection(p: Ingredient, k: real, sp: real, lt: real, sqrt: real -> real)
    requires Computable(p, k, sqrt)
    requires 0.0 <= p.d && 0.0 <= lt
    ensures ComputePolicy(p, k, sp, lt, sqrt).value.sr >= sp
  {
    assert 0.0 <= p.d * lt;
  }

  /** At the computed lot size the ordering term D·k/q equals the holding term q·c1/2,
      so the cost is q·c1 + b·D + Sp·c1 and no positive lot size costs less. */
  lemma PolicyIsCostOptimal(p: Ingredient, k: real, sp: real, lt: real, sqrt: real -> real, q': real)
    requires SqrtSpec(sqrt) && Computable(p, k, sqrt) && 0.0 < p.c1 && 0.0 < q'
    ensures var r := ComputePolicy(p, k, sp, lt, sqrt).value;
      p.d * k / r.q == r.q * p.c1 / 2.0 &&
      r.cte == r.q * p.c1 + p.b * p.d + sp * p.c1 &&
      r.cte <= CostModel.Cte(p.d, k, q', p.c1, p.b, sp)
  {
    var r := ComputePolicy(p, k, sp, lt, sqrt).value;
    PolicyFormulas(p, k, sp, lt, sqrt);
    CostModel.EoqBalancesTerms(p.d, k, r.q, p.c1);
    CostModel.EoqMinimisesCte(p.d, k, r.q, q', p.c1, p.b, sp);
  }

  predicate DistinctNames(insumos: seq<(string, Ingredient)>)
  {
    forall i, j :: 0 <= i < j < |insumos| ==> insumos[i].0 != insumos[j].0
  }

  function Names(insumos: seq<(string, Ingredient)>): set<string>
  {
    set i | 0 <= i < |insumos| :: insumos[i].0
  }

  /** The loop body with the shared k, Sp, LT and square root fixed. */
  function PolicyOf(k: real, sp: real, lt: real, sqrt: real -> real): (f: Ingredient -> Result<Policy>)
    ensures forall p :: f(p) == ComputePolicy(p, k, sp, lt, sqrt)
  {
    (p: Ingredient) => ComputePolicy(p, k, sp, lt, sqrt)
  }

  /** The results of `compute` on the ingredients in dict order, stored under their keys
      one at a time: the first ingredient whose computation raises gives the result its
      exception, so the call succeeds exactly when every ingredient's computation does. */
  function Policies(insumos: seq<(string, Ingredient)>, compute: Ingredient -> Result<Policy>): (r: Result<map<string, Policy>>)
    ensures r.Ok? <==> forall i :: 0 <= i < |insumos| ==> compute(insumos[i].1).Ok?
  {
    if |insumos| == 0 then Ok(map[])
    else
      var init := insumos[..|insumos| - 1];
      assert forall i :: 0 <= i < |init| ==> init[i] == insumos[i];
      match Policies(init, compute)
      case Err(e) => Err(e)
      case Ok(m) =>
        var last := insumos[|insumos| - 1];
        match compute(last.1)
        case Err(e) => Err(e)
        case Ok(policy) => Ok(m[last.0 := policy])
  }

  /** Once an ingredient has raised, the later ones change nothing. */
  lemma {:induction false} PoliciesErrPersists(insumos: seq<(string, Ingredient)>, n: nat, compute: Ingredient -> Result<Policy>)
    requires n <= |insumos| && Policies(insumos[..n], compute).Err?
    ensures Policies(insumos, compute) == Policies(insumos[..n], compute)
    decreases |insumos| - n
  {
    if n < |insumos| {
      assert insumos[..n + 1][..n] == insumos[..n];
      PoliciesErrPersists(insumos, n + 1, compute);
    } else {
      assert insumos[..n] == insumos;
    }
  }

  /** The policies succeed exactly when every ingredient's computation does, and then hold
      one entry per ingredient name, that ingredient's policy (names being distinct keys). */
  lemma {:induction false} PoliciesOk(insumos: seq<(string, Ingredient)>, compute: Ingredient -> Result<Policy>)
    requires DistinctNames(insumos)
    ensures Policies(insumos, compute).Ok? <==> forall i :: 0 <= i < |insumos| ==> compute(insumos[i].1).Ok?
    ensures Policies(insumos, compute).Ok? ==>
      Policies(insumos, compute).value.Keys == Names(insumos) &&
      forall i :: 0 <= i < |insumos| ==> Policies(insumos, compute).value[insumos[i].0] == compute(insumos[i].1).value
  {
    if Policies(insumos, compute).Ok? {
      PoliciesKeys(insumos, compute);
      PoliciesValues(insumos, compute);
    }
  }

  lemma {:induction false} PoliciesKeys(insumos: seq<(string, Ingredient)>, compute: Ingredient -> Result<Policy>)
    requires Policies(insumos, compute).Ok?
    ensures Policies(insumos, compute).value.Keys == Names(insumos)
  {
    if |insumos| > 0 {
      var init := insumos[..|insumos| - 1];
      var last := insumos[|insumos| - 1];
      assert forall i :: 0 <= i < |init| ==> init[i] == insumos[i];
      PoliciesKeys(init, compute);
      assert Names(insumos) == Names(init) + {last.0} by {
        assert forall n :: n in Names(insumos) ==> n in Names(init) || n == last.0;
      }
    }
  }

  lemma {:induction false} PoliciesValues(insumos: seq<(string, Ingredient)>, compute: Ingredient -> Result<Policy>)
    requires DistinctNames(insumos) && Policies(insumos, compute).Ok?
    ensures forall i :: 0 <= i < |insumos| ==> compute(insumos[i].1).Ok? && insumos[i].0 in Policies(insumos, compute).value
    ensures forall i :: 0 <= i < |insumos| ==> Policies(insumos, compute).value[insumos[i].0] == compute(insumos[i].1).value
  {
    if |insumos| > 0 {
      var init := insumos[..|insumos| - 1];
      var last := insumos[|insumos| - 1];
      assert forall i :: 0 <= i < |init| ==> init[i] == insumos[i];
      PoliciesValues(init, compute);
      assert forall i :: 0 <= i < |init| ==> init[i].0 != last.0;
    }
  }

  /** A failure is the exception of the first ingredient whose computation raises. */
  lemma {:induction false} PoliciesErr(insumos: seq<(string, Ingredient)>, compute: Ingredient -> Result<Policy>)
    requires Policies(insumos, compute).Err?
    ensures exists i :: 0 <= i < |insumos| && compute(insumos[i].1) == Err(Policies(insumos, compute).error) &&
                        forall j :: 0 <= j < i ==> compute(insumos[j].1).Ok?
  {
    var init := insumos[..|insumos| - 1];
    var n := |insumos| - 1;
    assert forall i :: 0 <= i < |init| ==> init[i] == insumos[i];
    if Policies(init, compute).Err? {
      PoliciesErr(init, compute);
      var i :| 0 <= i < |init| && compute(init[i].1) == Err(Policies(init, compute).error) &&
               forall j :: 0 <= j < i ==> compute(init[j].1).Ok?;
      assert insumos[i] == init[i];
    } else {
      PoliciesAllOk(init, compute);
      assert compute(insumos[n].1) == Err(Policies(insumos, compute).error);
    }
  }

  /** A success means every ingredient's computation succeeded. */
  lemma {:induction false} PoliciesAllOk(insumos: seq<(string, Ingredient)>, compute: Ingredient -> Result<Policy>)
    requires Policies(insumos, compute).Ok?
    ensures forall i :: 0 <= i < |insumos| ==> compute(insumos[i].1).Ok?
  {
    if |insumos| > 0 {
      var init := insumos[..|insumos| - 1];
      assert forall i :: 0 <= i < |init| ==> init[i] == insumos[i];
      PoliciesAllOk(init, compute);
    }
  }

  /** `modelo_inventario`: the loop over the ingredients in dict order, storing each
      ingredient's policy under its key; the first computation that raises aborts the call
      with that exception. */
  method ModeloInventario(insumos: seq<(string, Ingredient)>, k: real, sp: real, lt: real, sqrt: real -> real)
    returns (r: Result<map<string, Policy>>)
    ensures r == Policies(insumos, PolicyOf(k, sp, lt, sqrt))
  {
    var resultados: map<string, Policy> := map[];
    var n := 0;
    while n < |insumos|
      invariant 0 <= n <= |insumos|
      invariant Policies(insumos[..n], PolicyOf(k, sp, lt, sqrt)) == Ok(resultados)
    {
      var (insumo, parametros) := insumos[n];
      var policy := ComputePolicy(parametros, k, sp, lt, sqrt);
      assert insumos[..n + 1][..n] == insumos[..n];
      if policy.Err? {
        PoliciesErrPersists(insumos, n + 1, PolicyOf(k, sp, lt, sqrt));
        return Err(policy.error);
      }
      resultados := resultados[insumo := policy.value];
      n := n + 1;
    }
    assert insumos[..n] == insumos;
    return Ok(resultados);
  }

  /** What `modelo_inventario` returns: a policy for every ingredient key exactly when every
      ingredient is computable, each the EOQ policy of that ingredient; otherwise the
      exception of the first ingredient that is not. */
  lemma InventoryResult(insumos: seq<(string, Ingredient)>, k: real, sp: real, lt: real, sqrt: real -> real)
    requires DistinctNames(insumos)
    ensures var r := Policies(insumos, PolicyOf(k, sp, lt, sqrt));
      (r.Ok? <==> forall i :: 0 <= i < |insumos| ==> Computable(insumos[i].1, k, sqrt)) &&
      (r.Ok? ==> r.value.Keys == Names(insumos) && forall i :: 0 <= i < |insumos| ==>
         r.value[insumos[i].0] == ComputePolicy(insumos[i].1, k, sp, lt, sqrt).value) &&
      (r.Err? ==> exists i :: 0 <= i < |insumos| && ComputePolicy(insumos[i].1, k, sp, lt, sqrt) == Err(r.error) &&
                             (forall j :: 0 <= j < i ==> Computable(insumos[j].1, k, sqrt)))
  {
    var f := PolicyOf(k, sp, lt, sqrt);
    PoliciesOk(insumos, f);
    if Policies(insumos, f).Err? {
      PoliciesErr(insumos, f);
    }
  }
}
