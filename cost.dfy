/** The expected-total-cost (CTE) formula of the economic-order-quantity model.
    The three sensitivity scripts each define the same `calcular_cte`, and the inventory
    model writes the same expression inline; this module holds it once. */
module CostModel {

  /** The order cost k that every sensitivity script passes. */
  const OrderCost: real := 30000.0

  /** CTE = ordering cost + holding cost + acquisition cost + protective-stock holding cost,
      for total demand `d`, order cost `k`, lot size `q`, unit holding cost `c1`,
      unit acquisition cost `b` and protective stock `sp`. The ordering and holding terms
      are never negative, so the cost is at least its fixed part b·D + Sp·c1. */
  function Cte(d: real, k: real, q: real, c1: real, b: real, sp: real): (r: real)
    requires q != 0.0
    ensures 0.0 <= d && 0.0 <= k && 0.0 < q && 0.0 <= c1 ==> d * b + sp * c1 <= r
  {
    assert 0.0 <= d && 0.0 <= k && 0.0 < q && 0.0 <= c1 ==> 0.0 <= d * k / q && 0.0 <= q * c1 by {
      if 0.0 <= d && 0.0 <= k && 0.0 < q && 0.0 <= c1 {
        assert 0.0 <= d * k;
      }
    }
    d * k / q + q * c1 / 2.0 + d * b + sp * c1
  }

  /** `q` is the square root of 2·d·k/c1, the lot size of the model. */
  predicate IsLotSize(q: real, d: real, k: real, c1: real)
    requires c1 != 0.0
  {
    0.0 <= q && q * q == 2.0 * d * k / c1
  }

  /** With positive demand, order cost, lot size and holding cost, the cost is strictly
      more than the acquisition cost plus the protective-stock holding cost. */
  lemma CteExceedsFixedPart(d: real, k: real, q: real, c1: real, b: real, sp: real)
    requires 0.0 < d && 0.0 < k && 0.0 < q && 0.0 < c1
    ensures Cte(d, k, q, c1, b, sp) > d * b + sp * c1
  {
    assert 0.0 < d * k;
    assert 0.0 < d * k / q;
    assert 0.0 < q * c1;
  }

  /** At the square-root lot size the ordering term equals the holding term. */
  lemma EoqBalancesTerms(d: real, k: real, q: real, c1: real)
    requires c1 != 0.0 && 0.0 < q && IsLotSize(q, d, k, c1)
    ensures d * k / q == q * c1 / 2.0
  {
    assert q * q * c1 == 2.0 * d * k;
    assert d * k == q * (q * c1 / 2.0);
  }

  /** With non-negative inputs the cost is never negative. */
  lemma CteNonNegative(d: real, k: real, q: real, c1: real, b: real, sp: real)
    requires 0.0 <= d && 0.0 <= k && 0.0 < q && 0.0 <= c1 && 0.0 <= b && 0.0 <= sp
    ensures 0.0 <= Cte(d, k, q, c1, b, sp)
  {
    assert 0.0 <= d * k;
    assert 0.0 <= d * k / q;
    assert 0.0 <= q * c1;
    assert 0.0 <= d * b && 0.0 <= sp * c1;
  }

  /** The square-root lot size minimises the cost over all positive lot sizes: the gap to
      any other lot size `q'` is c1·(q − q')²/(2q'). */
  lemma EoqMinimisesCte(d: real, k: real, q: real, q': real, c1: real, b: real, sp: real)
    requires 0.0 < c1 && 0.0 < q && 0.0 < q' && IsLotSize(q, d, k, c1)
    ensures Cte(d, k, q, c1, b, sp) <= Cte(d, k, q', c1, b, sp)
    ensures Cte(d, k, q', c1, b, sp) - Cte(d, k, q, c1, b, sp) == c1 * (q - q') * (q - q') / (2.0 * q')
  {
    EoqBalancesTerms(d, k, q, c1);
    var dk := d * k;
    assert dk == q * q * c1 / 2.0 by {
      assert q * q * c1 == 2.0 * d * k;
    }
    assert dk / q' == q * q * c1 / (2.0 * q');
    assert q' * c1 / 2.0 == q' * q' * c1 / (2.0 * q');
    assert q * c1 == 2.0 * q * q' * c1 / (2.0 * q');
    assert dk / q' + q' * c1 / 2.0 - q * c1 == (q * q * c1 + q' * q' * c1 - 2.0 * q * q' * c1) / (2.0 * q');
    assert q * q * c1 + q' * q' * c1 - 2.0 * q * q' * c1 == c1 * (q - q') * (q - q');
    assert 0.0 <= c1 * ((q - q') * (q - q'));
  }
}
