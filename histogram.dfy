/** Shared vocabulary of the rebinning engine: bin-edge axes, the overlap of two
    bins, the overlap-weighted sums that a rebin redistributes, the outcomes the
    routines report, and the growable vector they write their results into. */
module Histogram {

  /** Why a rebinning call stopped. The first three are the exceptions of the
      general routine, the fourth that of the single-pass routine; `OutOfRange`
      stands for an access past the end of a vector, which the source does not
      check. */
  datatype RebinError =
    | DimensionMismatch   // "x,y, and error vectors should be of same size"
    | NoBinOverlap        // "no bin overlap detected"
    | ZeroWidthNewBin     // "Invalid output X array, contains consecutive X values"
    | NoOverlap           // "No overlap, max of Xold < min of Xnew"
    | OutOfRange          // a read or a resize past the end of a vector

  datatype Outcome = Done | Failed(error: RebinError)

  /** A `std::vector<double>` that a routine clears, resizes and updates in place. */
  class DoubleVector {
    var elems: seq<real>

    constructor (init: seq<real>)
      ensures elems == init
    {
      elems := init;
    }
  }

  function Zeros(n: nat): (z: seq<real>)
    ensures |z| == n && forall k :: 0 <= k < n ==> z[k] == 0.0
  {
    seq(n, _ => 0.0)
  }

  // Sign rules for products, stated once so that proofs can cite them.

  lemma MulPositive(a: real, b: real)
    requires a > 0.0 && b > 0.0
    ensures a * b > 0.0
  {}

  lemma MulNonNegative(a: real, b: real)
    requires a >= 0.0 && b >= 0.0
    ensures a * b >= 0.0
  {}

  lemma SquareNonNegative(a: real)
    ensures a * a >= 0.0
  {
    if a < 0.0 {
      MulPositive(-a, -a);
      assert (-a) * (-a) == a * a;
    }
  }

  function Squares(s: seq<real>): (r: seq<real>)
    ensures |r| == |s| && forall k :: 0 <= k < |s| ==> r[k] == s[k] * s[k]
  {
    seq(|s|, k requires 0 <= k < |s| => s[k] * s[k])
  }

  function Total(s: seq<real>): real
  {
    if s == [] then 0.0 else Total(s[..|s| - 1]) + s[|s| - 1]
  }

  /** The number of bins an edge axis defines; an axis of fewer than two edges has none. */
  function NumBins(x: seq<real>): nat
  {
    if |x| == 0 then 0 else |x| - 1
  }

  /** Edges, values and errors agree in length, as both routines check first. */
  predicate SameSize(x: seq<real>, y: seq<real>, e: seq<real>)
  {
    |x| == |y| + 1 && |x| == |e| + 1
  }

  predicate StrictlyIncreasing(x: seq<real>)
  {
    forall j, k :: 0 <= j < k < |x| ==> x[j] < x[k]
  }

  function Width(x: seq<real>, k: nat): real
    requires k + 1 < |x|
  {
    x[k + 1] - x[k]
  }

  function Min(a: real, b: real): real { if a < b then a else b }
  function Max(a: real, b: real): real { if a > b then a else b }

  /** Length of the intersection of [lo1, hi1] and [lo2, hi2], zero when they are apart. */
  function Overlap(lo1: real, hi1: real, lo2: real, hi2: real): (r: real)
    ensures r >= 0.0
    ensures r <= hi1 - lo1 || lo1 > hi1
    ensures hi1 <= lo2 || hi2 <= lo1 ==> r == 0.0
  {
    Max(0.0, Min(hi1, hi2) - Max(lo1, lo2))
  }

  /** Overlap of old bin j with new bin i. */
  function BinOverlap(xold: seq<real>, j: nat, xnew: seq<real>, i: nat): real
    requires j + 1 < |xold| && i + 1 < |xnew|
  {
    Overlap(xold[j], xold[j + 1], xnew[i], xnew[i + 1])
  }

  /** Amount of old bin j per unit of overlap. For counts (not a distribution) the
      value is spread evenly over the bin's width; a distribution value already is
      per unit width. */
  function ValueDensity(xold: seq<real>, yold: seq<real>, distribution: bool, j: nat): real
    requires StrictlyIncreasing(xold) && |xold| == |yold| + 1 && j < |yold|
  {
    if distribution then yold[j] else yold[j] / Width(xold, j)
  }

  /** Variance of old bin j per unit of overlap: the squared error divided by the
      width for counts, multiplied by it for a distribution. */
  function VarianceDensity(xold: seq<real>, eold: seq<real>, distribution: bool, j: nat): real
    requires StrictlyIncreasing(xold) && |xold| == |eold| + 1 && j < |eold|
  {
    if distribution then eold[j] * eold[j] * Width(xold, j) else eold[j] * eold[j] / Width(xold, j)
  }

  function ValueDensities(xold: seq<real>, yold: seq<real>, distribution: bool): (d: seq<real>)
    requires StrictlyIncreasing(xold) && |xold| == |yold| + 1
    ensures |d| == |yold|
    ensures forall j :: 0 <= j < |yold| ==> d[j] == ValueDensity(xold, yold, distribution, j)
  {
    seq(|yold|, j requires 0 <= j < |yold| => ValueDensity(xold, yold, distribution, j))
  }

  function VarianceDensities(xold: seq<real>, eold: seq<real>, distribution: bool): (d: seq<real>)
    requires StrictlyIncreasing(xold) && |xold| == |eold| + 1
    ensures |d| == |eold|
    ensures forall j :: 0 <= j < |eold| ==> d[j] == VarianceDensity(xold, eold, distribution, j)
  {
    seq(|eold|, j requires 0 <= j < |eold| => VarianceDensity(xold, eold, distribution, j))
  }

  /** What new bin i receives from the first k old bins: each old bin's density
      times its overlap with new bin i. */
  function Gathered(xold: seq<real>, dens: seq<real>, xnew: seq<real>, i: nat, k: nat): real
    requires |xold| == |dens| + 1 && i + 1 < |xnew| && k <= |dens|
  {
    if k == 0 then 0.0
    else Gathered(xold, dens, xnew, i, k - 1) + dens[k - 1] * BinOverlap(xold, k - 1, xnew, i)
  }

  /** The values the general rebin produces on strictly increasing axes: the
      overlap-weighted sum of the old values, divided by the new bin's width for a
      distribution. */
  function RebinnedValues(xold: seq<real>, yold: seq<real>, xnew: seq<real>, distribution: bool): (r: seq<real>)
    requires StrictlyIncreasing(xold) && StrictlyIncreasing(xnew) && |xold| == |yold| + 1
    ensures |r| == NumBins(xnew)
  {
    var d := ValueDensities(xold, yold, distribution);
    seq(NumBins(xnew), i requires 0 <= i < NumBins(xnew) =>
      if distribution then Gathered(xold, d, xnew, i, |yold|) / Width(xnew, i)
      else Gathered(xold, d, xnew, i, |yold|))
  }

  /** The variances the general rebin produces on strictly increasing axes (the
      squares of the errors it reports). */
  function RebinnedVariances(xold: seq<real>, eold: seq<real>, xnew: seq<real>, distribution: bool): (r: seq<real>)
    requires StrictlyIncreasing(xold) && StrictlyIncreasing(xnew) && |xold| == |eold| + 1
    ensures |r| == NumBins(xnew)
  {
    var d := VarianceDensities(xold, eold, distribution);
    seq(NumBins(xnew), i requires 0 <= i < NumBins(xnew) =>
      if distribution then Gathered(xold, d, xnew, i, |eold|) / Width(xnew, i) / Width(xnew, i)
      else Gathered(xold, d, xnew, i, |eold|))
  }
}
