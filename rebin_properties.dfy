/** What the general rebin's overlap-weighted sums promise: counts and variances are
    conserved when the new axis covers the old one, rebinning onto the same axis
    changes nothing, a bin split in two, a rate over a wider bin and axes that do not
    meet come out as expected, and an old axis with a repeated edge is refused. */
module RebinProperties {
  import opened Histogram
  import opened Rebin

  // Conservation. Of what the first m new bins gather from the first n old bins, old bin
  // n - 1 gives its density times its overlap with each; peeling the old bins off one at
  // a time turns the sum over new bins into a sum over old bins.

  /** What the first m new bins gather from the first n old bins, added up. */
  function GatheredSum(xold: seq<real>, dens: seq<real>, xnew: seq<real>, n: nat, m: nat): real
    requires |xold| == |dens| + 1 && n <= |dens| && m <= NumBins(xnew)
  {
    if m == 0 then 0.0 else GatheredSum(xold, dens, xnew, n, m - 1) + Gathered(xold, dens, xnew, m - 1, n)
  }

  /** The first n old bins' densities, each times its whole width, added up. */
  function WeightSum(xold: seq<real>, dens: seq<real>, n: nat): real
    requires |xold| == |dens| + 1 && n <= |dens|
  {
    if n == 0 then 0.0 else WeightSum(xold, dens, n - 1) + dens[n - 1] * Width(xold, n - 1)
  }

  /** Nothing is gathered from no old bins. */
  lemma {:induction false} NothingGathered(xold: seq<real>, dens: seq<real>, xnew: seq<real>, m: nat)
    requires |xold| == |dens| + 1 && m <= NumBins(xnew)
    ensures GatheredSum(xold, dens, xnew, 0, m) == 0.0
  {
    if m > 0 {
      NothingGathered(xold, dens, xnew, m - 1);
    }
  }

  /** c[0] + ... + c[m - 1]. */
  function SumTo(c: seq<real>, m: nat): real
    requires m <= |c|
  {
    if m == 0 then 0.0 else SumTo(c, m - 1) + c[m - 1]
  }

  /** d * c[0] + ... + d * c[m - 1]. */
  function ScaledSumTo(d: real, c: seq<real>, m: nat): real
    requires m <= |c|
  {
    if m == 0 then 0.0 else ScaledSumTo(d, c, m - 1) + d * c[m - 1]
  }

  /** A common factor comes out of a sum. */
  lemma {:induction false} FactorOut(d: real, c: seq<real>, m: nat)
    requires m <= |c|
    ensures ScaledSumTo(d, c, m) == d * SumTo(c, m)
  {
    if m > 0 {
      FactorOut(d, c, m - 1);
    }
  }

  /** Old bin j's overlaps with the first m new bins. */
  function Covers(xold: seq<real>, j: nat, xnew: seq<real>, m: nat): (c: seq<real>)
    requires j + 1 < |xold| && m <= NumBins(xnew)
    ensures |c| == m
    ensures forall i :: 0 <= i < m ==> c[i] == BinOverlap(xold, j, xnew, i)
  {
    if m == 0 then [] else Covers(xold, j, xnew, m - 1) + [BinOverlap(xold, j, xnew, m - 1)]
  }

  /** What old bin j gives the first m new bins: its density times each overlap. */
  function Contribution(xold: seq<real>, dens: seq<real>, j: nat, xnew: seq<real>, m: nat): real
    requires |xold| == |dens| + 1 && j < |dens| && m <= NumBins(xnew)
  {
    if m == 0 then 0.0 else Contribution(xold, dens, j, xnew, m - 1) + dens[j] * BinOverlap(xold, j, xnew, m - 1)
  }

  /** Old bin n - 1 adds its contribution to the first m new bins. */
  lemma {:induction false} PeelOldBin(xold: seq<real>, dens: seq<real>, xnew: seq<real>, n: nat, m: nat)
    requires |xold| == |dens| + 1 && 0 < n <= |dens| && m <= NumBins(xnew)
    ensures GatheredSum(xold, dens, xnew, n, m)
         == GatheredSum(xold, dens, xnew, n - 1, m) + Contribution(xold, dens, n - 1, xnew, m)
  {
    if m > 0 {
      PeelOldBin(xold, dens, xnew, n, m - 1);
    }
  }

  /** An old bin's contribution is its density times each of its overlaps. */
  lemma {:induction false} ContributionOfCovers(xold: seq<real>, dens: seq<real>, j: nat, xnew: seq<real>, m: nat)
    requires |xold| == |dens| + 1 && j < |dens| && m <= NumBins(xnew)
    ensures Contribution(xold, dens, j, xnew, m) == ScaledSumTo(dens[j], Covers(xold, j, xnew, NumBins(xnew)), m)
  {
    if m > 0 {
      ContributionOfCovers(xold, dens, j, xnew, m - 1);
      ShareOfCover(xold, dens, j, xnew, m - 1);
    }
  }

  /** Old bin j's share of new bin i, read off its overlaps. */
  lemma {:induction false} ShareOfCover(xold: seq<real>, dens: seq<real>, j: nat, xnew: seq<real>, i: nat)
    requires |xold| == |dens| + 1 && j < |dens| && i < NumBins(xnew)
    ensures dens[j] * Covers(xold, j, xnew, NumBins(xnew))[i] == dens[j] * BinOverlap(xold, j, xnew, i)
  {
    assert Covers(xold, j, xnew, NumBins(xnew))[i] == BinOverlap(xold, j, xnew, i);
  }

  /** Overlaps with two adjacent intervals add up to the overlap with their union. */
  lemma {:induction false} OverlapSplit(a: real, b: real, c: real, e: real, f: real)
    requires a <= b && c <= e <= f
    ensures Overlap(a, b, c, e) + Overlap(a, b, e, f) == Overlap(a, b, c, f)
  {}

  /** The first m new bins together cover of old bin j what the span of their edges does. */
  lemma {:induction false} CoverSumSpan(xold: seq<real>, j: nat, xnew: seq<real>, m: nat)
    requires StrictlyIncreasing(xold) && StrictlyIncreasing(xnew)
    requires j + 1 < |xold| && 0 < m <= NumBins(xnew)
    ensures SumTo(Covers(xold, j, xnew, NumBins(xnew)), m) == Overlap(xold[j], xold[j + 1], xnew[0], xnew[m])
  {
    assert xold[j] < xold[j + 1];
    if m == 1 {
      assert SumTo(Covers(xold, j, xnew, NumBins(xnew)), 0) == 0.0;
    } else {
      CoverSumSpan(xold, j, xnew, m - 1);
      assert xnew[0] < xnew[m - 1] < xnew[m];
      OverlapSplit(xold[j], xold[j + 1], xnew[0], xnew[m - 1], xnew[m]);
    }
  }

  /** An old bin inside the new axis is covered by the new bins by its whole width. */
  lemma {:induction false} ContainedBinCovered(xold: seq<real>, j: nat, xnew: seq<real>)
    requires StrictlyIncreasing(xold) && StrictlyIncreasing(xnew) && j + 1 < |xold|
    requires 0 < NumBins(xnew) && xnew[0] <= xold[0] && xold[|xold| - 1] <= xnew[|xnew| - 1]
    ensures SumTo(Covers(xold, j, xnew, NumBins(xnew)), NumBins(xnew)) == Width(xold, j)
  {
    var m := NumBins(xnew);
    CoverSumSpan(xold, j, xnew, m);
    assert xnew[0] <= xold[j] && xold[j + 1] <= xnew[m];
  }

  /** An old bin inside the new axis gives the new bins its density times its whole width. */
  lemma {:induction false} ContainedBinGivesWeight(xold: seq<real>, dens: seq<real>, j: nat, xnew: seq<real>)
    requires StrictlyIncreasing(xold) && StrictlyIncreasing(xnew) && |xold| == |dens| + 1 && j < |dens|
    requires 0 < NumBins(xnew) && xnew[0] <= xold[0] && xold[|xold| - 1] <= xnew[|xnew| - 1]
    ensures Contribution(xold, dens, j, xnew, NumBins(xnew)) == dens[j] * Width(xold, j)
  {
    ContributionOfCovers(xold, dens, j, xnew, NumBins(xnew));
    FactorOut(dens[j], Covers(xold, j, xnew, NumBins(xnew)), NumBins(xnew));
    ContainedBinCovered(xold, j, xnew);
  }

  /** Old bin n - 1 adds to the weights what it contributes to the new bins. */
  lemma {:induction false} WeightOfContainedBin(xold: seq<real>, dens: seq<real>, n: nat, xnew: seq<real>)
    requires StrictlyIncreasing(xold) && StrictlyIncreasing(xnew) && |xold| == |dens| + 1 && 0 < n <= |dens|
    requires 0 < NumBins(xnew) && xnew[0] <= xold[0] && xold[|xold| - 1] <= xnew[|xnew| - 1]
    ensures WeightSum(xold, dens, n) == WeightSum(xold, dens, n - 1) + Contribution(xold, dens, n - 1, xnew, NumBins(xnew))
  {
    ContainedBinGivesWeight(xold, dens, n - 1, xnew);
  }

  /** One more old bin keeps AllGathered's equation. */
  lemma {:induction false} AllGatheredStep(xold: seq<real>, dens: seq<real>, xnew: seq<real>, n: nat)
    requires StrictlyIncreasing(xold) && StrictlyIncreasing(xnew) && |xold| == |dens| + 1 && 0 < n <= |dens|
    requires 0 < NumBins(xnew) && xnew[0] <= xold[0] && xold[|xold| - 1] <= xnew[|xnew| - 1]
    requires GatheredSum(xold, dens, xnew, n - 1, NumBins(xnew)) == WeightSum(xold, dens, n - 1)
    ensures GatheredSum(xold, dens, xnew, n, NumBins(xnew)) == WeightSum(xold, dens, n)
  {
    PeelOldBin(xold, dens, xnew, n, NumBins(xnew));
    WeightOfContainedBin(xold, dens, n, xnew);
  }

  /** When the new axis spans the old one, the new bins gather from the first n old bins
      their densities weighted by their whole widths. */
  lemma {:induction false} AllGathered(xold: seq<real>, dens: seq<real>, xnew: seq<real>, n: nat)
    requires StrictlyIncreasing(xold) && StrictlyIncreasing(xnew) && |xold| == |dens| + 1 && n <= |dens|
    requires 0 < NumBins(xnew) && xnew[0] <= xold[0] && xold[|xold| - 1] <= xnew[|xnew| - 1]
    ensures GatheredSum(xold, dens, xnew, n, NumBins(xnew)) == WeightSum(xold, dens, n)
  {
    if n == 0 {
      NothingGathered(xold, dens, xnew, NumBins(xnew));
    } else {
      AllGathered(xold, dens, xnew, n - 1);
      AllGatheredStep(xold, dens, xnew, n);
    }
  }

  /** A sequence whose slots are the new bins' gathered sums totals to their GatheredSum. */
  lemma {:induction false} TotalOfGathered(xold: seq<real>, dens: seq<real>, xnew: seq<real>, r: seq<real>, m: nat)
    requires |xold| == |dens| + 1 && m <= NumBins(xnew) && m <= |r|
    requires forall i :: 0 <= i < m ==> r[i] == Gathered(xold, dens, xnew, i, |dens|)
    ensures Total(r[..m]) == GatheredSum(xold, dens, xnew, |dens|, m)
  {
    if m > 0 {
      TotalOfGathered(xold, dens, xnew, r, m - 1);
      assert r[..m][..m - 1] == r[..m - 1];
    }
  }

  /** When the new axis spans the old one, the new bins' gathered sums add up to the old
      densities weighted by the old widths. */
  lemma {:induction false} GatheredTotal(xold: seq<real>, dens: seq<real>, xnew: seq<real>, r: seq<real>)
    requires StrictlyIncreasing(xold) && StrictlyIncreasing(xnew) && |xold| == |dens| + 1
    requires 0 < NumBins(xnew) && xnew[0] <= xold[0] && xold[|xold| - 1] <= xnew[|xnew| - 1]
    requires |r| == NumBins(xnew)
    requires forall i :: 0 <= i < |r| ==> r[i] == Gathered(xold, dens, xnew, i, |dens|)
    ensures Total(r) == WeightSum(xold, dens, |dens|)
  {
    TotalOfGathered(xold, dens, xnew, r, |r|);
    assert r[..|r|] == r;
    AllGathered(xold, dens, xnew, |dens|);
  }

  /** Density times width gives back the old count when the density is count per width. */
  lemma {:induction false} ValueWeights(xold: seq<real>, yold: seq<real>, n: nat)
    requires StrictlyIncreasing(xold) && |xold| == |yold| + 1 && n <= |yold|
    ensures WeightSum(xold, ValueDensities(xold, yold, false), n) == Total(yold[..n])
  {
    if n > 0 {
      ValueWeights(xold, yold, n - 1);
      assert xold[n - 1] < xold[n];
      assert yold[..n][..n - 1] == yold[..n - 1];
    }
  }

  /** Likewise the variance density times the width gives back the squared error. */
  lemma {:induction false} VarianceWeights(xold: seq<real>, eold: seq<real>, n: nat)
    requires StrictlyIncreasing(xold) && |xold| == |eold| + 1 && n <= |eold|
    ensures WeightSum(xold, VarianceDensities(xold, eold, false), n) == Total(Squares(eold)[..n])
  {
    if n > 0 {
      VarianceWeights(xold, eold, n - 1);
      assert xold[n - 1] < xold[n];
      assert Squares(eold)[..n][..n - 1] == Squares(eold)[..n - 1];
    }
  }

  /** With a new axis of a single edge there are no new bins, and only an old axis of a
      single edge (no bins) fits inside it. */
  lemma {:induction false} NoNewBinsNoOldBins(xold: seq<real>, xnew: seq<real>)
    requires StrictlyIncreasing(xold) && 0 < |xold| && |xnew| == 1
    requires xnew[0] <= xold[0] && xold[|xold| - 1] <= xnew[0]
    ensures |xold| == 1
  {}

  /** Rebinning counts onto an axis that spans the old one keeps the total count. */
  lemma {:induction false} CountsConserved(xold: seq<real>, yold: seq<real>, xnew: seq<real>)
    requires StrictlyIncreasing(xold) && StrictlyIncreasing(xnew) && |xold| == |yold| + 1 && 0 < |xnew|
    requires xnew[0] <= xold[0] && xold[|xold| - 1] <= xnew[|xnew| - 1]
    ensures Total(RebinnedValues(xold, yold, xnew, false)) == Total(yold)
  {
    var r := RebinnedValues(xold, yold, xnew, false);
    var d := ValueDensities(xold, yold, false);
    var m := NumBins(xnew);
    assert yold[..|yold|] == yold;
    if m == 0 {
      NoNewBinsNoOldBins(xold, xnew);
      assert r == [] && yold == [];
    } else {
      GatheredTotal(xold, d, xnew, r);
      ValueWeights(xold, yold, |yold|);
    }
  }

  /** Rebinning counts onto an axis that spans the old one keeps the total variance:
      the errors add in quadrature to the same total as before. */
  lemma {:induction false} VariancesConserved(xold: seq<real>, eold: seq<real>, xnew: seq<real>)
    requires StrictlyIncreasing(xold) && StrictlyIncreasing(xnew) && |xold| == |eold| + 1 && 0 < |xnew|
    requires xnew[0] <= xold[0] && xold[|xold| - 1] <= xnew[|xnew| - 1]
    ensures Total(RebinnedVariances(xold, eold, xnew, false)) == Total(Squares(eold))
  {
    var r := RebinnedVariances(xold, eold, xnew, false);
    var d := VarianceDensities(xold, eold, false);
    var m := NumBins(xnew);
    assert Squares(eold)[..|eold|] == Squares(eold);
    if m == 0 {
      NoNewBinsNoOldBins(xold, xnew);
      assert r == [] && Squares(eold) == [];
    } else {
      GatheredTotal(xold, d, xnew, r);
      VarianceWeights(xold, eold, |eold|);
    }
  }

  // Identity: the same axis on both sides.

  /** On the same axis, new bin i gathers only from old bin i, by its whole width. */
  lemma {:induction false} GatheredSelf(x: seq<real>, dens: seq<real>, i: nat, n: nat)
    requires StrictlyIncreasing(x) && |x| == |dens| + 1 && i < |dens| && n <= |dens|
    ensures Gathered(x, dens, x, i, n) == if i < n then dens[i] * Width(x, i) else 0.0
  {
    if n > 0 {
      GatheredSelf(x, dens, i, n - 1);
      var j := n - 1;
      if j < i {
        assert x[j + 1] <= x[i];
      } else if i < j {
        assert x[i + 1] <= x[j];
      }
    }
  }

  lemma {:induction false} DivideThenScale(a: real, w: real)
    requires w > 0.0
    ensures a / w * w == a
  {}

  lemma {:induction false} ScaleThenDivide(a: real, w: real)
    requires w > 0.0
    ensures a * w / w == a
  {}


  /** The gathered sum of a bin onto itself is its density times its width. */
  lemma {:induction false} GatheredOwnBin(x: seq<real>, dens: seq<real>, i: nat) returns (w: real)
    requires StrictlyIncreasing(x) && |x| == |dens| + 1 && i < |dens|
    ensures w == Width(x, i) && w > 0.0
    ensures Gathered(x, dens, x, i, |dens|) == dens[i] * w
  {
    GatheredSelf(x, dens, i, |dens|);
    assert x[i] < x[i + 1];
    w := Width(x, i);
  }

  lemma {:induction false} IdentityValueAt(x: seq<real>, y: seq<real>, distribution: bool, i: nat)
    requires StrictlyIncreasing(x) && |x| == |y| + 1 && i < |y|
    ensures RebinnedValues(x, y, x, distribution)[i] == y[i]
  {
    var d := ValueDensities(x, y, distribution);
    var w := GatheredOwnBin(x, d, i);
    if distribution {
      IdentityValueScaled(y[i], d[i], w, Gathered(x, d, x, i, |y|));
    } else {
      IdentityValueDivided(y[i], d[i], w, Gathered(x, d, x, i, |y|));
    }
  }

  lemma {:induction false} IdentityValueScaled(y: real, d: real, w: real, g: real)
    requires w > 0.0 && d == y && g == d * w
    ensures g / w == y
  {
    ScaleThenDivide(y, w);
  }

  lemma {:induction false} IdentityValueDivided(y: real, d: real, w: real, g: real)
    requires w > 0.0 && d == y / w && g == d * w
    ensures g == y
  {
    DivideThenScale(y, w);
  }

  lemma {:induction false} IdentityVarianceAt(x: seq<real>, e: seq<real>, distribution: bool, i: nat)
    requires StrictlyIncreasing(x) && |x| == |e| + 1 && i < |e|
    ensures RebinnedVariances(x, e, x, distribution)[i] == e[i] * e[i]
  {
    if distribution {
      IdentityDistributionVarianceAt(x, e, i);
    } else {
      IdentityCountVarianceAt(x, e, i);
    }
  }

  lemma {:induction false} IdentityDistributionVarianceAt(x: seq<real>, e: seq<real>, i: nat)
    requires StrictlyIncreasing(x) && |x| == |e| + 1 && i < |e|
    ensures RebinnedVariances(x, e, x, true)[i] == e[i] * e[i]
  {
    var d := VarianceDensities(x, e, true);
    var w := GatheredOwnBin(x, d, i);
    IdentityVarianceScaled(e[i] * e[i], d[i], w, Gathered(x, d, x, i, |e|));
  }

  lemma {:induction false} IdentityCountVarianceAt(x: seq<real>, e: seq<real>, i: nat)
    requires StrictlyIncreasing(x) && |x| == |e| + 1 && i < |e|
    ensures RebinnedVariances(x, e, x, false)[i] == e[i] * e[i]
  {
    var d := VarianceDensities(x, e, false);
    var w := GatheredOwnBin(x, d, i);
    IdentityValueDivided(e[i] * e[i], d[i], w, Gathered(x, d, x, i, |e|));
  }

  lemma {:induction false} IdentityVarianceScaled(v: real, d: real, w: real, g: real)
    requires w > 0.0 && d == v * w && g == d * w
    ensures g / w / w == v
  {
    ScaleThenDivide(d, w);
    assert g / w == d;
    ScaleThenDivide(v, w);
  }

  /** Rebinning onto the old axis itself returns the old values, for either convention. */
  lemma {:induction false} IdentityValues(x: seq<real>, y: seq<real>, distribution: bool)
    requires StrictlyIncreasing(x) && |x| == |y| + 1
    ensures RebinnedValues(x, y, x, distribution) == y
  {
    forall i | 0 <= i < |y|
      ensures RebinnedValues(x, y, x, distribution)[i] == y[i]
    {
      IdentityValueAt(x, y, distribution, i);
    }
  }

  /** ... and the old variances (the squares of the old errors). */
  lemma {:induction false} IdentityVariances(x: seq<real>, e: seq<real>, distribution: bool)
    requires StrictlyIncreasing(x) && |x| == |e| + 1
    ensures RebinnedVariances(x, e, x, distribution) == Squares(e)
  {
    forall i | 0 <= i < |e|
      ensures RebinnedVariances(x, e, x, distribution)[i] == Squares(e)[i]
    {
      IdentityVarianceAt(x, e, distribution, i);
    }
  }

  // Small cases: a split bin, distribution scaling, disjoint axes, a repeated edge.

  /** One old bin of 12 counts over [0, 2] splits evenly onto [0, 1] and [1, 2]. */
  lemma {:induction false} SplitBin()
    ensures RebinnedValues([0.0, 2.0], [12.0], [0.0, 1.0, 2.0], false) == [6.0, 6.0]
  {
    var r := RebinnedValues([0.0, 2.0], [12.0], [0.0, 1.0, 2.0], false);
    assert r[0] == 6.0 && r[1] == 6.0;
  }

  /** ... and each half carries half of the old bin's variance. */
  lemma {:induction false} SplitBinVariance(v: real)
    ensures RebinnedVariances([0.0, 2.0], [v], [0.0, 1.0, 2.0], false) == [v * v / 2.0, v * v / 2.0]
  {
    var xold, xnew := [0.0, 2.0], [0.0, 1.0, 2.0];
    var d := VarianceDensities(xold, [v], false);
    assert d[0] == v * v / 2.0;
    assert BinOverlap(xold, 0, xnew, 0) == 1.0 && BinOverlap(xold, 0, xnew, 1) == 1.0;
    assert Gathered(xold, d, xnew, 0, 1) == d[0] * 1.0;
    assert Gathered(xold, d, xnew, 1, 1) == d[0] * 1.0;
  }

  /** A constant rate of 10 per unit over [0, 2], rebinned as a distribution onto the
      single bin [0, 2], is still 10 per unit, not 20. */
  lemma {:induction false} DistributionScaling()
    ensures RebinnedValues([0.0, 1.0, 2.0], [10.0, 10.0], [0.0, 2.0], true) == [10.0]
  {
    var r := RebinnedValues([0.0, 1.0, 2.0], [10.0, 10.0], [0.0, 2.0], true);
    assert r[0] == 10.0;
  }

  /** New bins that miss the old axis entirely receive nothing. */
  lemma {:induction false} NoOverlapGivesZeros(y: seq<real>)
    requires |y| == 2
    ensures RebinnedValues([0.0, 1.0, 2.0], y, [5.0, 6.0], false) == [0.0]
  {
    var xold, xnew := [0.0, 1.0, 2.0], [5.0, 6.0];
    var d := ValueDensities(xold, y, false);
    assert BinOverlap(xold, 0, xnew, 0) == 0.0 && BinOverlap(xold, 1, xnew, 0) == 0.0;
    assert Gathered(xold, d, xnew, 0, 1) == 0.0;
    assert Gathered(xold, d, xnew, 0, 2) == 0.0;
  }

  /** An old axis with a repeated edge, [0, 1, 1, 2], rebinned onto [0, 2]: after
      the first old bin the sweep meets the empty bin [1, 1] inside the new bin,
      and refuses it with "no bin overlap detected", in either convention. */
  lemma {:induction false} RepeatedEdgeRefused(xold: seq<real>, yold: seq<real>, eold: seq<real>, xnew: seq<real>,
                                                distribution: bool)
    requires xold == [0.0, 1.0, 1.0, 2.0] && yold == [1.0, 1.0, 1.0] && eold == [1.0, 1.0, 1.0]
    requires xnew == [0.0, 2.0]
    ensures RebinOutcome(xold, yold, eold, xnew, distribution) == Failed(NoBinOverlap)
  {
    assert Degenerate(xold, 1, xnew, 0);
    assert SweepPath(xold, xnew, 1, 0) == Failed(NoBinOverlap);
    assert !Degenerate(xold, 0, xnew, 0);
    assert SweepPath(xold, xnew, 0, 0) == SweepPath(xold, xnew, 1, 0);
  }
}
