/** Real-valued helpers: numpy's `clip(x, 0, 1)`, sums, means and the
    flag-weighted sum behind the additive rule score. */
module Numeric {

  /** `np.clip(x, 0, 1)`: saturate `x` into the unit interval. */
  function Clip01(x: real): (r: real)
    ensures 0.0 <= r <= 1.0
    ensures 0.0 <= x <= 1.0 ==> r == x
    ensures x < 0.0 ==> r == 0.0
    ensures x > 1.0 ==> r == 1.0
  {
    if x < 0.0 then 0.0 else if x > 1.0 then 1.0 else x
  }

  lemma ClipMonotone(x: real, y: real)
    requires x <= y
    ensures Clip01(x) <= Clip01(y)
  {
  }

  function Min(x: real, y: real): real {
    if x <= y then x else y
  }

  function MaxInt(x: int, y: int): int {
    if x >= y then x else y
  }

  /** Python's `sum(...)` over reals, left to right. */
  function Sum(xs: seq<real>): real {
    if xs == [] then 0.0 else xs[0] + Sum(xs[1..])
  }

  /** Arithmetic mean of a non-empty sequence. */
  function Mean(xs: seq<real>): real
    requires |xs| > 0
  {
    Sum(xs) / (|xs| as real)
  }

  ghost predicate InUnit(xs: seq<real>) {
    forall i :: 0 <= i < |xs| ==> 0.0 <= xs[i] <= 1.0
  }

  lemma {:induction false} SumUnitBounds(xs: seq<real>)
    requires InUnit(xs)
    ensures 0.0 <= Sum(xs) <= |xs| as real
  {
    if xs != [] {
      assert InUnit(xs[1..]) by {
        forall i | 0 <= i < |xs| - 1 ensures 0.0 <= xs[1..][i] <= 1.0 {
          assert xs[1..][i] == xs[i + 1];
        }
      }
      SumUnitBounds(xs[1..]);
    }
  }

  /** Dividing a sum of unit values by (at least) their number stays in [0,1]. */
  lemma AverageInUnit(xs: seq<real>, divisor: real)
    requires InUnit(xs) && divisor >= |xs| as real && divisor > 0.0
    ensures 0.0 <= Sum(xs) / divisor <= 1.0
  {
    SumUnitBounds(xs);
    var s := Sum(xs);
    assert s <= divisor;
    assert s / divisor * divisor == s;
  }

  lemma MeanInUnit(xs: seq<real>)
    requires |xs| > 0 && InUnit(xs)
    ensures 0.0 <= Mean(xs) <= 1.0
  {
    AverageInUnit(xs, |xs| as real);
  }

  /** A sequence all of whose entries are `c` has mean `c`. */
  lemma {:induction false} SumConstant(xs: seq<real>, c: real)
    requires forall i :: 0 <= i < |xs| ==> xs[i] == c
    ensures Sum(xs) == (|xs| as real) * c
  {
    if xs != [] {
      SumConstant(xs[1..], c);
    }
  }

  lemma MeanConstant(xs: seq<real>, c: real)
    requires |xs| > 0 && forall i :: 0 <= i < |xs| ==> xs[i] == c
    ensures Mean(xs) == c
  {
    SumConstant(xs, c);
  }

  /** Sum of the weights whose flag is set. */
  function WeightedSum(flags: seq<bool>, weights: seq<real>): real
    requires |flags| == |weights|
  {
    if flags == [] then 0.0
    else (if flags[0] then weights[0] else 0.0) + WeightedSum(flags[1..], weights[1..])
  }

  /** Extending the flags by one position adds that position's weight when it
      is set. */
  lemma {:induction false} WeightedSumSnoc(flags: seq<bool>, weights: seq<real>, k: int)
    requires |flags| == |weights| && 0 <= k < |flags|
    ensures WeightedSum(flags[..k + 1], weights[..k + 1])
      == WeightedSum(flags[..k], weights[..k]) + (if flags[k] then weights[k] else 0.0)
  {
    if k == 0 {
      assert flags[..1][1..] == [] && weights[..1][1..] == [];
    } else {
      assert flags[..k + 1][1..] == flags[1..][..k] && weights[..k + 1][1..] == weights[1..][..k];
      assert flags[..k][1..] == flags[1..][..k - 1] && weights[..k][1..] == weights[1..][..k - 1];
      WeightedSumSnoc(flags[1..], weights[1..], k - 1);
    }
  }

  ghost predicate NonNegative(ws: seq<real>) {
    forall i :: 0 <= i < |ws| ==> ws[i] >= 0.0
  }

  lemma {:induction false} WeightedSumBounds(flags: seq<bool>, weights: seq<real>)
    requires |flags| == |weights| && NonNegative(weights)
    ensures 0.0 <= WeightedSum(flags, weights) <= Sum(weights)
  {
    if flags != [] {
      assert NonNegative(weights[1..]) by {
        forall i | 0 <= i < |weights| - 1 ensures weights[1..][i] >= 0.0 {
          assert weights[1..][i] == weights[i + 1];
        }
      }
      WeightedSumBounds(flags[1..], weights[1..]);
    }
  }

  lemma {:induction false} WeightedSumNoneSet(flags: seq<bool>, weights: seq<real>)
    requires |flags| == |weights| && forall i :: 0 <= i < |flags| ==> !flags[i]
    ensures WeightedSum(flags, weights) == 0.0
  {
    if flags != [] {
      assert forall i :: 0 <= i < |flags| - 1 ==> flags[1..][i] == flags[i + 1];
      WeightedSumNoneSet(flags[1..], weights[1..]);
    }
  }

  /** Turning one flag on adds exactly its weight. */
  lemma {:induction false} WeightedSumFlip(flags: seq<bool>, weights: seq<real>, i: int)
    requires |flags| == |weights| && 0 <= i < |flags| && !flags[i]
    ensures WeightedSum(flags[i := true], weights) == WeightedSum(flags, weights) + weights[i]
  {
    if i == 0 {
      assert flags[i := true][1..] == flags[1..];
    } else {
      assert flags[i := true][1..] == flags[1..][i - 1 := true];
      WeightedSumFlip(flags[1..], weights[1..], i - 1);
    }
  }

  /** With non-negative weights, setting more flags never lowers the sum. */
  lemma {:induction false} WeightedSumMonotone(f: seq<bool>, g: seq<bool>, weights: seq<real>)
    requires |f| == |weights| && |g| == |weights| && NonNegative(weights)
    requires forall i :: 0 <= i < |f| ==> f[i] ==> g[i]
    ensures WeightedSum(f, weights) <= WeightedSum(g, weights)
  {
    if f != [] {
      assert NonNegative(weights[1..]) by {
        forall i | 0 <= i < |weights| - 1 ensures weights[1..][i] >= 0.0 {
          assert weights[1..][i] == weights[i + 1];
        }
      }
      forall i | 0 <= i < |f| - 1 ensures f[1..][i] ==> g[1..][i] {
        assert f[1..][i] == f[i + 1] && g[1..][i] == g[i + 1];
      }
      WeightedSumMonotone(f[1..], g[1..], weights[1..]);
      assert weights[0] >= 0.0;
    }
  }
}
