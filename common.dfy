/** Shared vocabulary: optional values, the errors Python raises in the modelled code,
    sums, block concatenation, filters and subsequences. */
module Common {

  datatype Option<T> = None | Some(value: T)

  /** The Python exceptions the modelled code can raise. */
  datatype Error =
    | ZeroDivisionError
    | MathDomainError          // math.sqrt of a negative number (a ValueError)
    | ValueError(what: string) // a failed float conversion or a length mismatch
    | KeyError(key: string)
    | IndexError

  datatype Result<T> = Ok(value: T) | Err(error: Error)

  /** Sum of a sequence, accumulated left to right. */
  function Sum(xs: seq<real>): real
  {
    if |xs| == 0 then 0.0 else Sum(xs[..|xs| - 1]) + xs[|xs| - 1]
  }

  lemma {:induction false} SumAppend(a: seq<real>, b: seq<real>)
    ensures Sum(a + b) == Sum(a) + Sum(b)
  {
    if |b| == 0 {
      assert a + b == a;
    } else {
      assert (a + b)[..|a + b| - 1] == a + b[..|b| - 1];
      SumAppend(a, b[..|b| - 1]);
    }
  }

  lemma {:induction false} SumNonNegative(xs: seq<real>)
    requires forall i :: 0 <= i < |xs| ==> 0.0 <= xs[i]
    ensures 0.0 <= Sum(xs)
  {
    if |xs| > 0 {
      SumNonNegative(xs[..|xs| - 1]);
    }
  }

  /** Sum of a sequence of naturals. */
  function SumNat(xs: seq<nat>): nat
  {
    if |xs| == 0 then 0 else SumNat(xs[..|xs| - 1]) + xs[|xs| - 1]
  }

  /** The blocks of `xss` written one after another. */
  function Concat<T>(xss: seq<seq<T>>): seq<T>
  {
    if |xss| == 0 then [] else Concat(xss[..|xss| - 1]) + xss[|xss| - 1]
  }

  lemma ConcatStep<T>(xss: seq<seq<T>>, k: nat)
    requires k < |xss|
    ensures Concat(xss[..k + 1]) == Concat(xss[..k]) + xss[k]
  {
    assert xss[..k + 1][..k] == xss[..k];
  }

  /** Taking one more element of `s` appends it. */
  lemma TakeSnoc<T>(s: seq<T>, j: nat)
    requires j < |s|
    ensures s[..j + 1] == s[..j] + [s[j]]
  {
  }

  /** Taking one more element of `b` appends it. */
  lemma SnocPrefix<T>(a: seq<T>, b: seq<T>, j: nat)
    requires j < |b|
    ensures a + b[..j + 1] == (a + b[..j]) + [b[j]]
  {
    assert b[..j + 1] == b[..j] + [b[j]];
  }

  /** Appending block `k` after everything before it. */
  lemma ConcatStepAfter<T>(done: seq<T>, xss: seq<seq<T>>, k: nat)
    requires k < |xss|
    ensures done + Concat(xss[..k + 1]) == (done + Concat(xss[..k])) + xss[k]
  {
    ConcatStep(xss, k);
  }

  /** Where block `k` starts inside `Concat(xss)`. */
  function BlockStart<T>(xss: seq<seq<T>>, k: nat): nat
    requires k <= |xss|
  {
    |Concat(xss[..k])|
  }

  lemma {:induction false} ConcatAt<T>(xss: seq<seq<T>>, k: nat, j: nat)
    requires k < |xss| && j < |xss[k]|
    ensures BlockStart(xss, k) + j < |Concat(xss)|
    ensures Concat(xss)[BlockStart(xss, k) + j] == xss[k][j]
  {
    var n := |xss| - 1;
    assert xss[..n + 1] == xss;
    if k == n {
      assert Concat(xss) == Concat(xss[..n]) + xss[n];
    } else {
      ConcatAt(xss[..n], k, j);
      assert xss[..n][..k] == xss[..k];
      assert Concat(xss) == Concat(xss[..n]) + xss[n];
    }
  }

  /** A concatenation of `m` blocks of `c` elements each holds `m * c` elements. */
  lemma {:induction false} ConcatUniformLength<T>(xss: seq<seq<T>>, c: nat)
    requires forall k :: 0 <= k < |xss| ==> |xss[k]| == c
    ensures |Concat(xss)| == |xss| * c
  {
    if |xss| > 0 {
      ConcatUniformLength(xss[..|xss| - 1], c);
    }
  }

  /** When block `k` holds `c * ws[k]` elements, the first `t` blocks hold
      `c * SumNat(ws[..t])`. */
  lemma {:induction false} ConcatScaledLength<T>(xss: seq<seq<T>>, ws: seq<nat>, c: nat, t: nat)
    requires |ws| == |xss| && t <= |xss|
    requires forall k :: 0 <= k < |xss| ==> |xss[k]| == c * ws[k]
    ensures |Concat(xss[..t])| == c * SumNat(ws[..t])
  {
    if t > 0 {
      ConcatScaledLength(xss, ws, c, t - 1);
      ConcatStep(xss, t - 1);
      assert ws[..t][..t - 1] == ws[..t - 1];
      assert SumNat(ws[..t]) == SumNat(ws[..t - 1]) + ws[t - 1];
      assert c * SumNat(ws[..t]) == c * SumNat(ws[..t - 1]) + c * ws[t - 1];
    }
  }

  /** Block `k` starts after `k` full blocks when every block holds `c` elements. */
  lemma UniformBlockStart<T>(xss: seq<seq<T>>, c: nat, k: nat)
    requires forall i :: 0 <= i < |xss| ==> |xss[i]| == c
    requires k <= |xss|
    ensures BlockStart(xss, k) == k * c
  {
    ConcatUniformLength(xss[..k], c);
  }

  /** The elements of `xs` that satisfy `p`, in their original order. */
  function Filter<T>(xs: seq<T>, p: T -> bool): (r: seq<T>)
    ensures |r| <= |xs|
    ensures forall i :: 0 <= i < |r| ==> p(r[i])
    ensures forall i :: 0 <= i < |r| ==> r[i] in xs
    ensures forall i :: 0 <= i < |xs| && p(xs[i]) ==> xs[i] in r
  {
    if |xs| == 0 then []
    else
      var rest := Filter(xs[..|xs| - 1], p);
      assert xs == xs[..|xs| - 1] + [xs[|xs| - 1]];
      if p(xs[|xs| - 1]) then rest + [xs[|xs| - 1]] else rest
  }

  /** `a` is `b` with some elements removed. */
  predicate IsSubsequence<T(==)>(a: seq<T>, b: seq<T>)
    decreases |b|
  {
    if |a| == 0 then true
    else if |b| == 0 then false
    else if a[|a| - 1] == b[|b| - 1] then IsSubsequence(a[..|a| - 1], b[..|b| - 1])
    else IsSubsequence(a, b[..|b| - 1])
  }

  lemma {:induction false} SubsequenceOfExtension<T>(a: seq<T>, b: seq<T>, x: T)
    requires IsSubsequence(a, b)
    ensures IsSubsequence(a, b + [x])
    decreases |b|, 1
  {
    assert (b + [x])[..|b|] == b;
    if |a| > 0 && a[|a| - 1] == x {
      SubsequencePrefix(a, b);
      assert IsSubsequence(a[..|a| - 1], b);
    }
  }

  lemma {:induction false} SubsequencePrefix<T>(a: seq<T>, b: seq<T>)
    requires |a| > 0 && IsSubsequence(a, b)
    ensures IsSubsequence(a[..|a| - 1], b)
    decreases |b|, 0
  {
    if a[|a| - 1] == b[|b| - 1] {
      SubsequenceOfExtension(a[..|a| - 1], b[..|b| - 1], b[|b| - 1]);
      assert b[..|b| - 1] + [b[|b| - 1]] == b;
    } else {
      SubsequencePrefix(a, b[..|b| - 1]);
      SubsequenceOfExtension(a[..|a| - 1], b[..|b| - 1], b[|b| - 1]);
      assert b[..|b| - 1] + [b[|b| - 1]] == b;
    }
  }

  lemma {:induction false} FilterIsSubsequence<T>(xs: seq<T>, p: T -> bool)
    ensures IsSubsequence(Filter(xs, p), xs)
  {
    if |xs| > 0 {
      var init := xs[..|xs| - 1];
      FilterIsSubsequence(init, p);
      assert xs == init + [xs[|xs| - 1]];
      if p(xs[|xs| - 1]) {
        assert Filter(xs, p) == Filter(init, p) + [xs[|xs| - 1]];
        assert (Filter(init, p) + [xs[|xs| - 1]])[..|Filter(xs, p)| - 1] == Filter(init, p);
      } else {
        SubsequenceOfExtension(Filter(init, p), init, xs[|xs| - 1]);
      }
    }
  }

  /** Filtering a sequence whose every element already satisfies `p` changes nothing. */
  lemma {:induction false} FilterKeepsAll<T>(xs: seq<T>, p: T -> bool)
    requires forall i :: 0 <= i < |xs| ==> p(xs[i])
    ensures Filter(xs, p) == xs
  {
    if |xs| > 0 {
      FilterKeepsAll(xs[..|xs| - 1], p);
      assert xs == xs[..|xs| - 1] + [xs[|xs| - 1]];
    }
  }

  /** Keeping the elements that satisfy `p` keeps exactly as many as satisfy it. */
  function CountWhere<T>(xs: seq<T>, p: T -> bool): nat
  {
    if |xs| == 0 then 0 else CountWhere(xs[..|xs| - 1], p) + (if p(xs[|xs| - 1]) then 1 else 0)
  }

  lemma {:induction false} FilterLength<T>(xs: seq<T>, p: T -> bool)
    ensures |Filter(xs, p)| == CountWhere(xs, p)
  {
    if |xs| > 0 {
      FilterLength(xs[..|xs| - 1], p);
    }
  }

  /** Distinct elements of a sequence, in order of first appearance (pandas `unique`). */
  function Unique<T(==)>(xs: seq<T>): (r: seq<T>)
    ensures forall i :: 0 <= i < |r| ==> r[i] in xs
    ensures forall i :: 0 <= i < |xs| ==> xs[i] in r
    ensures forall i, j :: 0 <= i < j < |r| ==> r[i] != r[j]
  {
    if |xs| == 0 then []
    else
      var rest := Unique(xs[..|xs| - 1]);
      assert xs == xs[..|xs| - 1] + [xs[|xs| - 1]];
      if xs[|xs| - 1] in rest then rest else rest + [xs[|xs| - 1]]
  }

  predicate Distinct<T(==)>(xs: seq<T>)
  {
    forall i, j :: 0 <= i < j < |xs| ==> xs[i] != xs[j]
  }

  /** A new element in front of distinct elements keeps them distinct. */
  lemma DistinctCons<T>(a: T, xs: seq<T>)
    requires Distinct(xs) && a !in xs
    ensures Distinct([a] + xs)
  {
    var ys := [a] + xs;
    forall i, j | 0 <= i < j < |ys| ensures ys[i] != ys[j] {
      assert ys[j] == xs[j - 1];
      if i > 0 {
        assert ys[i] == xs[i - 1];
      }
    }
  }

  lemma {:induction false} UniqueOfDistinct<T>(xs: seq<T>)
    requires Distinct(xs)
    ensures Unique(xs) == xs
  {
    if |xs| > 0 {
      var init := xs[..|xs| - 1];
      UniqueOfDistinct(init);
      assert xs[|xs| - 1] !in init;
      assert xs == init + [xs[|xs| - 1]];
    }
  }
}
