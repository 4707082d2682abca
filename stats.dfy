/**
 * The `average` helper of the watched-list summary, over exact reals.
 * The application folds `acc + cur / arr.length` from the left, starting at 0;
 * `Accumulate` is that fold and `Average` applies it to the whole array.
 */
module Stats {

  /** The exact sum, the reference against which the fold is proved. */
  function Sum(xs: seq<real>): real
  {
    if xs == [] then 0.0 else xs[0] + Sum(xs[1..])
  }

  /** The reduce callback of `average`: each element contributes `cur / n`. */
  function Accumulate(xs: seq<real>, n: nat, acc: real): real
    requires n > 0 || xs == []
  {
    if xs == [] then acc else Accumulate(xs[1..], n, acc + xs[0] / n as real)
  }

  /** `average(arr)`: the fold over `arr` with divisor `arr.length` and initial value 0. */
  function Average(xs: seq<real>): real
  {
    Accumulate(xs, |xs|, 0.0)
  }

  /** The fold adds the sum divided by `n` to its accumulator. */
  lemma {:induction false} AccumulateIsScaledSum(xs: seq<real>, n: nat, acc: real)
    requires n > 0
    ensures Accumulate(xs, n, acc) == acc + Sum(xs) / n as real
  {
    if xs != [] {
      AccumulateIsScaledSum(xs[1..], n, acc + xs[0] / n as real);
      assert (xs[0] + Sum(xs[1..])) / n as real == xs[0] / n as real + Sum(xs[1..]) / n as real;
    }
  }

  /** The average of an empty array is 0; otherwise it is the arithmetic mean. */
  lemma AverageIsMean(xs: seq<real>)
    ensures xs == [] ==> Average(xs) == 0.0
    ensures xs != [] ==> Average(xs) == Sum(xs) / |xs| as real
  {
    if xs != [] {
      AccumulateIsScaledSum(xs, |xs|, 0.0);
    }
  }

  /** A sum of `|xs|` values that all lie in `[lo, hi]` lies in `[|xs| * lo, |xs| * hi]`. */
  lemma {:induction false} SumBounds(xs: seq<real>, lo: real, hi: real)
    requires forall i :: 0 <= i < |xs| ==> lo <= xs[i] <= hi
    ensures |xs| as real * lo <= Sum(xs) <= |xs| as real * hi
  {
    if xs != [] {
      SumBounds(xs[1..], lo, hi);
      assert lo <= xs[0] <= hi;
      assert |xs| as real == 1.0 + |xs[1..]| as real;
    }
  }

  /** The average of values that all lie in `[lo, hi]` lies in `[lo, hi]` too. */
  lemma AverageBounds(xs: seq<real>, lo: real, hi: real)
    requires xs != []
    requires forall i :: 0 <= i < |xs| ==> lo <= xs[i] <= hi
    ensures lo <= Average(xs) <= hi
  {
    AverageIsMean(xs);
    SumBounds(xs, lo, hi);
    MeanBounds(Sum(xs), |xs| as real, lo, hi);
  }

  lemma MeanBounds(s: real, n: real, lo: real, hi: real)
    requires n > 0.0 && n * lo <= s <= n * hi
    ensures lo <= s / n <= hi
  {
    assert s / n - lo == (s - n * lo) / n;
    assert hi - s / n == (n * hi - s) / n;
  }
}
