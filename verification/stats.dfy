/** The arithmetic the recommender performs on ratings: sums, means (the
    aggregation of `pivot_table` and of `groupby(...).mean()`) and the rounding
    to four decimals applied to every reported score. */
module Stats {

  function Sum(xs: seq<real>): real
  {
    if xs == [] then 0.0 else xs[0] + Sum(xs[1..])
  }

  function Mean(xs: seq<real>): real
    requires xs != []
  {
    Sum(xs) / (|xs| as real)
  }

  lemma {:induction false} SumBounds(xs: seq<real>, lo: real, hi: real)
    requires forall k :: 0 <= k < |xs| ==> lo <= xs[k] <= hi
    ensures (|xs| as real) * lo <= Sum(xs) <= (|xs| as real) * hi
  {
    if xs != [] {
      SumBounds(xs[1..], lo, hi);
    }
  }

  /** A mean lies between any lower and upper bound of the values averaged. */
  lemma MeanBounds(xs: seq<real>, lo: real, hi: real)
    requires xs != []
    requires forall k :: 0 <= k < |xs| ==> lo <= xs[k] <= hi
    ensures lo <= Mean(xs) <= hi
  {
    SumBounds(xs, lo, hi);
  }

  /** `round(x, 4)` on exact reals: the nearest multiple of 1/10000, halves
      rounded up. */
  function Round4(x: real): real
  {
    ((x * 10000.0 + 0.5).Floor as real) / 10000.0
  }

  lemma Round4Close(x: real)
    ensures x - 0.00005 < Round4(x) <= x + 0.00005
  {
  }

  /** Rounding keeps order: a ranking by score is still non-increasing after
      its scores are rounded. */
  lemma Round4Monotone(x: real, y: real)
    requires x <= y
    ensures Round4(x) <= Round4(y)
  {
    assert (x * 10000.0 + 0.5).Floor <= (y * 10000.0 + 0.5).Floor;
  }
}
