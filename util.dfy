/** Numeric helpers of `src/util.ts` (`sum`, `mean`, `clip`) and of the numeric backend
    (`tf.losses.meanSquaredError`, element-wise products), over unbounded reals. */
module Util {

  /** `sum`: the total of a list of numbers; 0 for the empty list. */
  function Sum(xs: seq<real>): real
  {
    if xs == [] then 0.0 else xs[0] + Sum(xs[1..])
  }

  lemma {:induction false} SumAppend(xs: seq<real>, ys: seq<real>)
    ensures Sum(xs + ys) == Sum(xs) + Sum(ys)
  {
    if xs == [] {
      assert xs + ys == ys;
    } else {
      assert (xs + ys)[1..] == xs[1..] + ys;
      SumAppend(xs[1..], ys);
    }
  }

  /** Every element between `lo` and `hi` puts the total between |xs|·lo and |xs|·hi. */
  lemma {:induction false} SumBounds(xs: seq<real>, lo: real, hi: real)
    requires forall i :: 0 <= i < |xs| ==> lo <= xs[i] <= hi
    ensures |xs| as real * lo <= Sum(xs) <= |xs| as real * hi
  {
    if xs != [] {
      SumBounds(xs[1..], lo, hi);
    }
  }

  /** Subtracting the same constant from every element lowers the total by |xs|·c. */
  lemma {:induction false} SumShift(xs: seq<real>, c: real)
    ensures Sum(seq(|xs|, i requires 0 <= i < |xs| => xs[i] - c)) == Sum(xs) - |xs| as real * c
  {
    var shifted := seq(|xs|, i requires 0 <= i < |xs| => xs[i] - c);
    if xs != [] {
      assert shifted[1..] == seq(|xs[1..]|, i requires 0 <= i < |xs[1..]| => xs[1..][i] - c);
      SumShift(xs[1..], c);
    }
  }

  /** Multiplying every element by `c` multiplies the total by `c`. */
  lemma {:induction false} SumScale(xs: seq<real>, c: real)
    ensures Sum(seq(|xs|, i requires 0 <= i < |xs| => c * xs[i])) == c * Sum(xs)
  {
    var scaled := seq(|xs|, i requires 0 <= i < |xs| => c * xs[i]);
    if xs != [] {
      var rest := seq(|xs[1..]|, i requires 0 <= i < |xs[1..]| => c * xs[1..][i]);
      assert scaled[1..] == rest by {
        forall k | 0 <= k < |rest| ensures scaled[1..][k] == rest[k] {
          assert scaled[1..][k] == c * xs[k + 1];
        }
      }
      SumScale(xs[1..], c);
      assert Sum(scaled) == scaled[0] + Sum(rest);
      Distribute(c, xs[0], Sum(xs[1..]));
    }
  }

  lemma Distribute(c: real, a: real, b: real)
    ensures c * a + c * b == c * (a + b)
  {
  }

  /** `mean`: the arithmetic mean of a non-empty list. */
  function Mean(xs: seq<real>): real
    requires |xs| > 0
  {
    Sum(xs) / |xs| as real
  }

  /** The mean of values in [lo, hi] lies in [lo, hi]. */
  lemma MeanBounds(xs: seq<real>, lo: real, hi: real)
    requires |xs| > 0
    requires forall i :: 0 <= i < |xs| ==> lo <= xs[i] <= hi
    ensures lo <= Mean(xs) <= hi
  {
    SumBounds(xs, lo, hi);
    QuotientBounds(Sum(xs), |xs| as real, lo, hi);
  }

  lemma QuotientBounds(s: real, n: real, lo: real, hi: real)
    requires n > 0.0 && n * lo <= s <= n * hi
    ensures lo <= s / n <= hi
  {
  }

  /** `clip`: the value limited to the interval [lo, hi]. */
  function Clip(x: real, lo: real, hi: real): (r: real)
    requires lo <= hi
    ensures lo <= r <= hi
    ensures lo <= x <= hi ==> r == x
    ensures x < lo ==> r == lo
    ensures x > hi ==> r == hi
  {
    if x < lo then lo else if x > hi then hi else x
  }

  lemma ProductNonNegative(x: real, y: real)
    requires x >= 0.0 && y >= 0.0
    ensures x * y >= 0.0
  {
  }

  lemma ProductNonZero(x: real, y: real)
    requires x != 0.0 && y != 0.0
    ensures x * y != 0.0
  {
  }

  function MaxReal(a: real, b: real): real
  {
    if a >= b then a else b
  }

  /** Element-wise product summed: `a.mul(b).sum()` on two tensors of one length. */
  function Dot(xs: seq<real>, ys: seq<real>): real
    requires |xs| == |ys|
  {
    if xs == [] then 0.0 else xs[0] * ys[0] + Dot(xs[1..], ys[1..])
  }

  lemma {:induction false} DotAppend(xs: seq<real>, ys: seq<real>, us: seq<real>, vs: seq<real>)
    requires |xs| == |ys| && |us| == |vs|
    ensures Dot(xs + us, ys + vs) == Dot(xs, ys) + Dot(us, vs)
  {
    if xs != [] {
      assert (xs + us)[1..] == xs[1..] + us;
      assert (ys + vs)[1..] == ys[1..] + vs;
      DotAppend(xs[1..], ys[1..], us, vs);
    } else {
      assert xs + us == us && ys + vs == vs;
    }
  }

  /** Non-positive weights against non-negative values give a non-positive total. */
  lemma {:induction false} DotNonPositive(xs: seq<real>, ys: seq<real>)
    requires |xs| == |ys|
    requires forall i :: 0 <= i < |xs| ==> xs[i] <= 0.0 && ys[i] >= 0.0
    ensures Dot(xs, ys) <= 0.0
  {
    if xs != [] {
      ProductNonNegative(-xs[0], ys[0]);
      DotNonPositive(xs[1..], ys[1..]);
    }
  }

  /** Sum of squared differences of two lists of one length. */
  function SquaredError(targets: seq<real>, predictions: seq<real>): real
    requires |targets| == |predictions|
  {
    if targets == [] then 0.0
    else (targets[0] - predictions[0]) * (targets[0] - predictions[0])
         + SquaredError(targets[1..], predictions[1..])
  }

  lemma {:induction false} SquaredErrorZero(targets: seq<real>, predictions: seq<real>)
    requires |targets| == |predictions|
    ensures SquaredError(targets, predictions) >= 0.0
    ensures targets == predictions ==> SquaredError(targets, predictions) == 0.0
  {
    if targets != [] {
      SquaredErrorZero(targets[1..], predictions[1..]);
      SquareSign(targets[0] - predictions[0]);
    }
  }

  lemma SquareSign(d: real)
    ensures d * d >= 0.0
  {
    if d < 0.0 {
      ProductNonNegative(-d, -d);
    } else {
      ProductNonNegative(d, d);
    }
  }

  /** `tf.losses.meanSquaredError` of two lists of one, non-zero, length. */
  function Mse(targets: seq<real>, predictions: seq<real>): real
    requires |targets| == |predictions| > 0
  {
    SquaredError(targets, predictions) / |targets| as real
  }

  /** The mean squared error is never negative, and zero when every prediction equals its
      target. */
  lemma MseNonNegative(targets: seq<real>, predictions: seq<real>)
    requires |targets| == |predictions| > 0
    ensures Mse(targets, predictions) >= 0.0
    ensures targets == predictions ==> Mse(targets, predictions) == 0.0
  {
    SquaredErrorZero(targets, predictions);
    QuotientBounds(SquaredError(targets, predictions), |targets| as real, 0.0, SquaredError(targets, predictions));
  }
}
