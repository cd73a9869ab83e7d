/** The general rebin: a two-cursor sweep over the bins of the old and the new
    axis that hands every overlapping (old bin, new bin) pair its share, followed
    by a pass that converts a distribution back to per-unit-width values. */
module Rebin {
  import opened Histogram

  /** The overlap the sweep computes for old bin j and new bin i, before any check. */
  function Delta(xold: seq<real>, j: nat, xnew: seq<real>, i: nat): real
    requires j + 1 < |xold| && i + 1 < |xnew|
  {
    Min(xold[j + 1], xnew[i + 1]) - Max(xold[j], xnew[i])
  }

  /** Neither bin lies wholly at or below the other: the sweep's overlap branch. */
  predicate Meets(xold: seq<real>, j: nat, xnew: seq<real>, i: nat)
    requires j + 1 < |xold| && i + 1 < |xnew|
  {
    !(xnew[i + 1] <= xold[j]) && !(xold[j + 1] <= xnew[i])
  }

  /** A pair the sweep refuses with "no bin overlap detected". */
  predicate Degenerate(xold: seq<real>, j: nat, xnew: seq<real>, i: nat)
    requires j + 1 < |xold| && i + 1 < |xnew|
  {
    Meets(xold, j, xnew, i) && (Delta(xold, j, xnew, i) <= 0.0 || Width(xold, j) <= 0.0)
  }

  /** On strictly increasing axes every pair that meets overlaps by a positive amount,
      and that amount is the pair's BinOverlap. */
  lemma MeetingPairOverlaps(xold: seq<real>, j: nat, xnew: seq<real>, i: nat)
    requires StrictlyIncreasing(xold) && StrictlyIncreasing(xnew)
    requires j + 1 < |xold| && i + 1 < |xnew| && Meets(xold, j, xnew, i)
    ensures !Degenerate(xold, j, xnew, i)
    ensures Delta(xold, j, xnew, i) == BinOverlap(xold, j, xnew, i) > 0.0
  {
    assert xold[j] < xold[j + 1] && xnew[i] < xnew[i + 1];
  }

  /** Old bins from k on start at or above the top of new bin i, so they add nothing to it. */
  lemma {:induction false} GatheredTail(xold: seq<real>, dens: seq<real>, xnew: seq<real>, i: nat, k: nat, n: nat)
    requires StrictlyIncreasing(xold) && |xold| == |dens| + 1 && i + 1 < |xnew|
    requires k <= n <= |dens| && xnew[i + 1] <= xold[k]
    ensures Gathered(xold, dens, xnew, i, n) == Gathered(xold, dens, xnew, i, k)
    decreases n
  {
    if n > k {
      GatheredTail(xold, dens, xnew, i, k, n - 1);
      assert xold[k] <= xold[n - 1];
      assert BinOverlap(xold, n - 1, xnew, i) == 0.0;
    }
  }

  /** Old bins below k end at or below the bottom of new bin i, so none of them reaches it. */
  lemma {:induction false} GatheredHead(xold: seq<real>, dens: seq<real>, xnew: seq<real>, i: nat, k: nat)
    requires StrictlyIncreasing(xold) && |xold| == |dens| + 1 && i + 1 < |xnew| && k <= |dens|
    requires 0 < k ==> xold[k] <= xnew[i]
    ensures Gathered(xold, dens, xnew, i, k) == 0.0
  {
    if k > 0 {
      if k > 1 {
        assert xold[k - 1] < xold[k];
      }
      GatheredHead(xold, dens, xnew, i, k - 1);
      assert BinOverlap(xold, k - 1, xnew, i) == 0.0;
    }
  }

  /** `v / w / w`, the square of `sqrt(v) / w`, keeps the sign of v. */
  lemma DivideTwiceNonNegative(v: real, w: real)
    requires v >= 0.0 && w != 0.0
    ensures v / w / w >= 0.0
  {
    if w > 0.0 {
      assert v / w >= 0.0;
    } else {
      assert v / w <= 0.0;
    }
  }

  /** The value share the sweep adds for an overlap delta is the old bin's value
      density times delta. */
  lemma ValueShare(xold: seq<real>, yold: seq<real>, distribution: bool, j: nat, delta: real, width: real)
    requires StrictlyIncreasing(xold) && |xold| == |yold| + 1 && j < |yold| && width == Width(xold, j)
    ensures width > 0.0
    ensures ValueShareOf(yold[j], delta, width, distribution) == ValueDensities(xold, yold, distribution)[j] * delta
  {
    assert xold[j] < xold[j + 1];
  }

  /** Likewise for the variance share. */
  lemma VarianceShare(xold: seq<real>, eold: seq<real>, distribution: bool, j: nat, delta: real, width: real)
    requires StrictlyIncreasing(xold) && |xold| == |eold| + 1 && j < |eold| && delta > 0.0 && width == Width(xold, j)
    ensures width > 0.0
    ensures VarianceShareOf(eold[j], delta, width, distribution) == VarianceDensities(xold, eold, distribution)[j] * delta
  {
    assert xold[j] < xold[j + 1];
  }

  /** The variance share of a pair with positive overlap and positive width is never negative. */
  lemma VarianceShareSign(e: real, delta: real, width: real)
    requires delta > 0.0 && width > 0.0
    ensures e * e * delta * width >= 0.0 && e * e * delta / width >= 0.0
  {
    SquareNonNegative(e);
    MulNonNegative(e * e, delta);
    MulNonNegative(e * e * delta, width);
  }

  /** What the sweep adds to a new bin's value for an overlap delta with an old bin
      of the given width: the value itself for a distribution, its share of the
      width otherwise. */
  function ValueShareOf(y: real, delta: real, width: real, distribution: bool): real
    requires width > 0.0
  {
    if distribution then y * delta else y * delta / width
  }

  /** What the sweep adds to a new bin's variance: the squared error times the
      overlap, times the width for a distribution and divided by it otherwise. */
  function VarianceShareOf(e: real, delta: real, width: real, distribution: bool): (r: real)
    requires delta > 0.0 && width > 0.0
    ensures r >= 0.0
  {
    VarianceShareSign(e, delta, width);
    if distribution then e * e * delta * width else e * e * delta / width
  }

  /** The contents of one output of the sweep on strictly increasing axes when the
      cursors stand at old bin iold and new bin inew, for the given densities (value
      densities for the values, variance densities for the variances): bins behind
      the new cursor are complete, the bin under it holds the shares of the old bins
      behind the old cursor, and bins ahead of it are still zero. */
  ghost function SweepState(xold: seq<real>, dens: seq<real>, xnew: seq<real>, iold: nat, inew: nat): (r: seq<real>)
    requires |xold| == |dens| + 1 && iold <= |dens|
    ensures |r| == NumBins(xnew)
  {
    SweepPrefix(xold, dens, xnew, iold, inew, NumBins(xnew))
  }

  /** The first n bins of SweepState, built one bin at a time. */
  ghost function SweepPrefix(xold: seq<real>, dens: seq<real>, xnew: seq<real>, iold: nat, inew: nat, n: nat): (r: seq<real>)
    requires |xold| == |dens| + 1 && iold <= |dens| && n <= NumBins(xnew)
    ensures |r| == n
  {
    if n == 0 then [] else SweepPrefix(xold, dens, xnew, iold, inew, n - 1) + [SweepCell(xold, dens, xnew, iold, inew, n - 1)]
  }

  lemma {:induction false} SweepPrefixAt(xold: seq<real>, dens: seq<real>, xnew: seq<real>, iold: nat, inew: nat, n: nat)
    requires |xold| == |dens| + 1 && iold <= |dens| && n <= NumBins(xnew)
    ensures forall k :: 0 <= k < n ==> SweepPrefix(xold, dens, xnew, iold, inew, n)[k] == SweepCell(xold, dens, xnew, iold, inew, k)
  {
    if n > 0 {
      SweepPrefixAt(xold, dens, xnew, iold, inew, n - 1);
    }
  }

  /** Bin k of the sweep's state. */
  lemma SweepStateAt(xold: seq<real>, dens: seq<real>, xnew: seq<real>, iold: nat, inew: nat)
    requires |xold| == |dens| + 1 && iold <= |dens|
    ensures forall k :: 0 <= k < NumBins(xnew) ==> SweepState(xold, dens, xnew, iold, inew)[k] == SweepCell(xold, dens, xnew, iold, inew, k)
  {
    SweepPrefixAt(xold, dens, xnew, iold, inew, NumBins(xnew));
  }

  ghost function SweepCell(xold: seq<real>, dens: seq<real>, xnew: seq<real>, iold: nat, inew: nat, k: nat): real
    requires |xold| == |dens| + 1 && iold <= |dens| && k < NumBins(xnew)
  {
    if k < inew then Gathered(xold, dens, xnew, k, |dens|)
    else if k == inew then Gathered(xold, dens, xnew, inew, iold)
    else 0.0
  }

  /** Where the cursors may stand: the old cursor's bottom edge lies at or below the
      top of the current new bin. */
  predicate Aligned(xold: seq<real>, xnew: seq<real>, iold: nat, inew: nat)
    requires iold < |xold| && inew <= NumBins(xnew)
  {
    0 < iold && inew < NumBins(xnew) ==> xold[iold] <= xnew[inew + 1]
  }

  lemma SweepStart(xold: seq<real>, dens: seq<real>, xnew: seq<real>)
    requires |xold| == |dens| + 1
    ensures SweepState(xold, dens, xnew, 0, 0) == Zeros(NumBins(xnew))
  {
    SweepStateAt(xold, dens, xnew, 0, 0);
  }

  /** The new bin after inew has as yet no share from the old bins behind the old
      cursor, and the cursors stay aligned when the new cursor moves on. */
  lemma NextNewBinEmpty(xold: seq<real>, dens: seq<real>, xnew: seq<real>, iold: nat, inew: nat)
    requires StrictlyIncreasing(xold) && StrictlyIncreasing(xnew) && |xold| == |dens| + 1
    requires iold <= |dens| && inew < NumBins(xnew) && Aligned(xold, xnew, iold, inew)
    ensures inew + 1 < NumBins(xnew) ==> Gathered(xold, dens, xnew, inew + 1, iold) == 0.0
    ensures Aligned(xold, xnew, iold, inew + 1)
  {
    if inew + 1 < NumBins(xnew) {
      GatheredHead(xold, dens, xnew, inew + 1, iold);
      assert xnew[inew + 1] < xnew[inew + 2];
    }
  }

  /** A new bin wholly at or below the old bin's bottom edge is complete. */
  lemma SweepSkipNew(xold: seq<real>, dens: seq<real>, xnew: seq<real>, iold: nat, inew: nat)
    requires StrictlyIncreasing(xold) && StrictlyIncreasing(xnew) && |xold| == |dens| + 1
    requires iold < |dens| && inew < NumBins(xnew) && Aligned(xold, xnew, iold, inew)
    requires xnew[inew + 1] <= xold[iold]
    ensures Aligned(xold, xnew, iold, inew + 1)
    ensures SweepState(xold, dens, xnew, iold, inew + 1) == SweepState(xold, dens, xnew, iold, inew)
  {
    GatheredTail(xold, dens, xnew, inew, iold, |dens|);
    NextNewBinEmpty(xold, dens, xnew, iold, inew);
    SweepStateAt(xold, dens, xnew, iold, inew);
    SweepStateAt(xold, dens, xnew, iold, inew + 1);
    assert forall k :: 0 <= k < NumBins(xnew) ==>
      SweepState(xold, dens, xnew, iold, inew + 1)[k] == SweepState(xold, dens, xnew, iold, inew)[k];
  }

  /** An old bin wholly at or below the new bin's bottom edge adds nothing to it. */
  lemma SweepSkipOld(xold: seq<real>, dens: seq<real>, xnew: seq<real>, iold: nat, inew: nat)
    requires StrictlyIncreasing(xold) && StrictlyIncreasing(xnew) && |xold| == |dens| + 1
    requires iold < |dens| && inew < NumBins(xnew) && Aligned(xold, xnew, iold, inew)
    requires xold[iold + 1] <= xnew[inew]
    ensures Aligned(xold, xnew, iold + 1, inew)
    ensures SweepState(xold, dens, xnew, iold + 1, inew) == SweepState(xold, dens, xnew, iold, inew)
  {
    assert BinOverlap(xold, iold, xnew, inew) == 0.0;
    assert xnew[inew] < xnew[inew + 1];
    SweepStateAt(xold, dens, xnew, iold, inew);
    SweepStateAt(xold, dens, xnew, iold + 1, inew);
    assert forall k :: 0 <= k < NumBins(xnew) ==>
      SweepState(xold, dens, xnew, iold + 1, inew)[k] == SweepState(xold, dens, xnew, iold, inew)[k];
  }

  /** Adding the share of a meeting pair to the current new bin, then advancing the
      cursor whose bin ends first. */
  lemma SweepShare(xold: seq<real>, dens: seq<real>, xnew: seq<real>, iold: nat, inew: nat, ys: seq<real>,
                   delta: real, share: real)
    requires StrictlyIncreasing(xold) && StrictlyIncreasing(xnew) && |xold| == |dens| + 1
    requires iold < |dens| && inew < NumBins(xnew) && Aligned(xold, xnew, iold, inew)
    requires Meets(xold, iold, xnew, inew)
    requires ys == SweepState(xold, dens, xnew, iold, inew)
    requires delta == Delta(xold, iold, xnew, inew) && share == dens[iold] * delta
    ensures xnew[inew + 1] > xold[iold + 1] ==>
      Aligned(xold, xnew, iold + 1, inew) && ys[inew := ys[inew] + share] == SweepState(xold, dens, xnew, iold + 1, inew)
    ensures xnew[inew + 1] <= xold[iold + 1] ==>
      Aligned(xold, xnew, iold, inew + 1) && ys[inew := ys[inew] + share] == SweepState(xold, dens, xnew, iold, inew + 1)
  {
    var after := ys[inew := ys[inew] + share];
    assert after[inew] == Gathered(xold, dens, xnew, inew, iold + 1) by {
      MeetingPairOverlaps(xold, iold, xnew, inew);
      SweepStateAt(xold, dens, xnew, iold, inew);
    }
    assert forall k :: 0 <= k < NumBins(xnew) && k != inew ==> after[k] == SweepCell(xold, dens, xnew, iold, inew, k) by {
      SweepStateAt(xold, dens, xnew, iold, inew);
    }
    if xnew[inew + 1] <= xold[iold + 1] {
      GatheredTail(xold, dens, xnew, inew, iold + 1, |dens|);
      NextNewBinEmpty(xold, dens, xnew, iold, inew);
      SweepStateAt(xold, dens, xnew, iold, inew + 1);
      assert forall k :: 0 <= k < NumBins(xnew) ==> SweepState(xold, dens, xnew, iold, inew + 1)[k] == after[k];
    } else {
      SweepStateAt(xold, dens, xnew, iold + 1, inew);
      assert forall k :: 0 <= k < NumBins(xnew) ==> SweepState(xold, dens, xnew, iold + 1, inew)[k] == after[k];
    }
  }

  /** Once either cursor is exhausted every new bin holds its full overlap-weighted sum. */
  lemma SweepComplete(xold: seq<real>, dens: seq<real>, xnew: seq<real>, iold: nat, inew: nat)
    requires StrictlyIncreasing(xold) && StrictlyIncreasing(xnew) && |xold| == |dens| + 1
    requires iold <= |dens| && inew <= NumBins(xnew) && (inew == NumBins(xnew) || iold == |dens|)
    requires Aligned(xold, xnew, iold, inew)
    ensures forall k :: 0 <= k < NumBins(xnew) ==>
      SweepState(xold, dens, xnew, iold, inew)[k] == Gathered(xold, dens, xnew, k, |dens|)
  {
    SweepStateAt(xold, dens, xnew, iold, inew);
    forall k | inew < k < NumBins(xnew)
      ensures Gathered(xold, dens, xnew, k, |dens|) == 0.0
    {
      assert xnew[inew + 1] <= xnew[k];
      GatheredHead(xold, dens, xnew, k, |dens|);
    }
  }

  /** What holds between the steps of the sweep: both outputs have one slot per new
      bin, no variance is negative, and on strictly increasing axes the cursors are
      aligned and the outputs hold the sweep's states for value and variance
      densities. */
  ghost predicate SweepInvariant(xold: seq<real>, yold: seq<real>, eold: seq<real>, xnew: seq<real>,
                                 distribution: bool, iold: nat, inew: nat, ys: seq<real>, es: seq<real>)
  {
    && SameSize(xold, yold, eold) && iold <= |yold| && inew <= NumBins(xnew)
    && |ys| == NumBins(xnew) && |es| == NumBins(xnew)
    && (forall k :: 0 <= k < |es| ==> es[k] >= 0.0)
    && (StrictlyIncreasing(xold) && StrictlyIncreasing(xnew) ==>
          && Aligned(xold, xnew, iold, inew)
          && ys == SweepState(xold, ValueDensities(xold, yold, distribution), xnew, iold, inew)
          && es == SweepState(xold, VarianceDensities(xold, eold, distribution), xnew, iold, inew))
  }

  lemma InvariantSkipNew(xold: seq<real>, yold: seq<real>, eold: seq<real>, xnew: seq<real>,
                         distribution: bool, iold: nat, inew: nat, ys: seq<real>, es: seq<real>)
    requires SweepInvariant(xold, yold, eold, xnew, distribution, iold, inew, ys, es)
    requires iold < |yold| && inew < NumBins(xnew) && xnew[inew + 1] <= xold[iold]
    ensures SweepInvariant(xold, yold, eold, xnew, distribution, iold, inew + 1, ys, es)
  {
    if StrictlyIncreasing(xold) && StrictlyIncreasing(xnew) {
      SweepSkipNew(xold, ValueDensities(xold, yold, distribution), xnew, iold, inew);
      SweepSkipNew(xold, VarianceDensities(xold, eold, distribution), xnew, iold, inew);
    }
  }

  lemma InvariantSkipOld(xold: seq<real>, yold: seq<real>, eold: seq<real>, xnew: seq<real>,
                         distribution: bool, iold: nat, inew: nat, ys: seq<real>, es: seq<real>)
    requires SweepInvariant(xold, yold, eold, xnew, distribution, iold, inew, ys, es)
    requires iold < |yold| && inew < NumBins(xnew) && xold[iold + 1] <= xnew[inew]
    ensures SweepInvariant(xold, yold, eold, xnew, distribution, iold + 1, inew, ys, es)
  {
    if StrictlyIncreasing(xold) && StrictlyIncreasing(xnew) {
      SweepSkipOld(xold, ValueDensities(xold, yold, distribution), xnew, iold, inew);
      SweepSkipOld(xold, VarianceDensities(xold, eold, distribution), xnew, iold, inew);
    }
  }

  /** The overlap branch on the values: adding the source's value share and
      moving past the bin that ends first yields the next state. */
  lemma ValueStateShare(xold: seq<real>, yold: seq<real>, xnew: seq<real>, distribution: bool,
                        iold: nat, inew: nat, ys: seq<real>, delta: real, width: real)
    requires StrictlyIncreasing(xold) && StrictlyIncreasing(xnew) && |xold| == |yold| + 1
    requires iold < |yold| && inew < NumBins(xnew) && Aligned(xold, xnew, iold, inew) && Meets(xold, iold, xnew, inew)
    requires delta == Delta(xold, iold, xnew, inew) && width == Width(xold, iold)
    requires ys == SweepState(xold, ValueDensities(xold, yold, distribution), xnew, iold, inew)
    ensures width > 0.0
    ensures xnew[inew + 1] > xold[iold + 1] ==>
      ys[inew := ys[inew] + ValueShareOf(yold[iold], delta, width, distribution)]
        == SweepState(xold, ValueDensities(xold, yold, distribution), xnew, iold + 1, inew)
    ensures xnew[inew + 1] <= xold[iold + 1] ==>
      ys[inew := ys[inew] + ValueShareOf(yold[iold], delta, width, distribution)]
        == SweepState(xold, ValueDensities(xold, yold, distribution), xnew, iold, inew + 1)
  {
    var vd := ValueDensities(xold, yold, distribution);
    var share := ValueShareOf(yold[iold], delta, width, distribution);
    ValueShare(xold, yold, distribution, iold, delta, width);
    SweepShare(xold, vd, xnew, iold, inew, ys, delta, share);
  }

  /** The overlap branch on the variances. */
  lemma VarianceStateShare(xold: seq<real>, eold: seq<real>, xnew: seq<real>, distribution: bool,
                           iold: nat, inew: nat, es: seq<real>, delta: real, width: real)
    requires StrictlyIncreasing(xold) && StrictlyIncreasing(xnew) && |xold| == |eold| + 1
    requires iold < |eold| && inew < NumBins(xnew) && Aligned(xold, xnew, iold, inew) && Meets(xold, iold, xnew, inew)
    requires delta == Delta(xold, iold, xnew, inew) && width == Width(xold, iold) && delta > 0.0
    requires es == SweepState(xold, VarianceDensities(xold, eold, distribution), xnew, iold, inew)
    ensures width > 0.0
    ensures xnew[inew + 1] > xold[iold + 1] ==>
      es[inew := es[inew] + VarianceShareOf(eold[iold], delta, width, distribution)]
        == SweepState(xold, VarianceDensities(xold, eold, distribution), xnew, iold + 1, inew)
    ensures xnew[inew + 1] <= xold[iold + 1] ==>
      es[inew := es[inew] + VarianceShareOf(eold[iold], delta, width, distribution)]
        == SweepState(xold, VarianceDensities(xold, eold, distribution), xnew, iold, inew + 1)
  {
    var ed := VarianceDensities(xold, eold, distribution);
    var share := VarianceShareOf(eold[iold], delta, width, distribution);
    VarianceShare(xold, eold, distribution, iold, delta, width);
    SweepShare(xold, ed, xnew, iold, inew, es, delta, share);
  }

  lemma InvariantShare(xold: seq<real>, yold: seq<real>, eold: seq<real>, xnew: seq<real>,
                       distribution: bool, iold: nat, inew: nat, ys: seq<real>, es: seq<real>,
                       delta: real, width: real)
    requires SweepInvariant(xold, yold, eold, xnew, distribution, iold, inew, ys, es)
    requires iold < |yold| && inew < NumBins(xnew) && Meets(xold, iold, xnew, inew)
    requires delta == Delta(xold, iold, xnew, inew) && width == Width(xold, iold) && delta > 0.0 && width > 0.0
    ensures var ys' := ys[inew := ys[inew] + ValueShareOf(yold[iold], delta, width, distribution)];
      var es' := es[inew := es[inew] + VarianceShareOf(eold[iold], delta, width, distribution)];
      && (xnew[inew + 1] > xold[iold + 1] ==>
            SweepInvariant(xold, yold, eold, xnew, distribution, iold + 1, inew, ys', es'))
      && (xnew[inew + 1] <= xold[iold + 1] ==>
            SweepInvariant(xold, yold, eold, xnew, distribution, iold, inew + 1, ys', es'))
  {
    if StrictlyIncreasing(xold) && StrictlyIncreasing(xnew) {
      MeetingPairOverlaps(xold, iold, xnew, inew);
      NextNewBinEmpty(xold, ValueDensities(xold, yold, distribution), xnew, iold, inew);
      ValueStateShare(xold, yold, xnew, distribution, iold, inew, ys, delta, width);
      VarianceStateShare(xold, eold, xnew, distribution, iold, inew, es, delta, width);
    }
  }

  /** The path the sweep's cursors take over the bins from old bin iold and new
      bin inew on: past a new bin lying wholly at or below the old one, past an
      old bin lying wholly at or below the new one, past the old bin of a meeting
      pair when the new bin reaches above it and past the new bin otherwise. The
      walk ends normally once either axis has no bin left, and fails on the first
      meeting pair without a positive overlap or width. */
  function SweepPath(xold: seq<real>, xnew: seq<real>, iold: nat, inew: nat): (r: Outcome)
    ensures r == Done || r == Failed(NoBinOverlap)
    decreases |xold| - iold + |xnew| - inew
  {
    if !(iold + 1 < |xold| && inew + 1 < |xnew|) then Done
    else if xnew[inew + 1] <= xold[iold] then SweepPath(xold, xnew, iold, inew + 1)
    else if xold[iold + 1] <= xnew[inew] then SweepPath(xold, xnew, iold + 1, inew)
    else if Degenerate(xold, iold, xnew, inew) then Failed(NoBinOverlap)
    else if xnew[inew + 1] > xold[iold + 1] then SweepPath(xold, xnew, iold + 1, inew)
    else SweepPath(xold, xnew, iold, inew + 1)
  }

  /** A failing path has met a refused pair. */
  lemma {:induction false} SweepPathRefusal(xold: seq<real>, xnew: seq<real>, iold: nat, inew: nat)
    requires SweepPath(xold, xnew, iold, inew) == Failed(NoBinOverlap)
    ensures exists j, i :: iold <= j < NumBins(xold) && inew <= i < NumBins(xnew) && Degenerate(xold, j, xnew, i)
    decreases |xold| - iold + |xnew| - inew
  {
    if xnew[inew + 1] <= xold[iold] {
      SweepPathRefusal(xold, xnew, iold, inew + 1);
    } else if xold[iold + 1] <= xnew[inew] {
      SweepPathRefusal(xold, xnew, iold + 1, inew);
    } else if Degenerate(xold, iold, xnew, inew) {
    } else if xnew[inew + 1] > xold[iold + 1] {
      SweepPathRefusal(xold, xnew, iold + 1, inew);
    } else {
      SweepPathRefusal(xold, xnew, iold, inew + 1);
    }
  }

  /** On strictly increasing axes the path never fails. */
  lemma {:induction false} SweepPathOnIncreasingAxes(xold: seq<real>, xnew: seq<real>, iold: nat, inew: nat)
    requires StrictlyIncreasing(xold) && StrictlyIncreasing(xnew)
    ensures SweepPath(xold, xnew, iold, inew) == Done
    decreases |xold| - iold + |xnew| - inew
  {
    if !(iold + 1 < |xold| && inew + 1 < |xnew|) {
    } else if xnew[inew + 1] <= xold[iold] {
      SweepPathOnIncreasingAxes(xold, xnew, iold, inew + 1);
    } else if xold[iold + 1] <= xnew[inew] {
      SweepPathOnIncreasingAxes(xold, xnew, iold + 1, inew);
    } else {
      MeetingPairOverlaps(xold, iold, xnew, inew);
      if xnew[inew + 1] > xold[iold + 1] {
        SweepPathOnIncreasingAxes(xold, xnew, iold + 1, inew);
      } else {
        SweepPathOnIncreasingAxes(xold, xnew, iold, inew + 1);
      }
    }
  }

  /** Some new bin has zero width, which the distribution postpass refuses. */
  predicate HasZeroWidthBin(xnew: seq<real>)
  {
    exists i :: 0 <= i < NumBins(xnew) && Width(xnew, i) == 0.0
  }

  /** How a call of the general rebin ends: the length check, then the sweep's
      path, then for a distribution the check of the new widths. */
  function RebinOutcome(xold: seq<real>, yold: seq<real>, eold: seq<real>, xnew: seq<real>,
                        distribution: bool): Outcome
  {
    if !SameSize(xold, yold, eold) then Failed(DimensionMismatch)
    else if SweepPath(xold, xnew, 0, 0) != Done then SweepPath(xold, xnew, 0, 0)
    else if distribution && HasZeroWidthBin(xnew) then Failed(ZeroWidthNewBin)
    else Done
  }

  /** One step of the sweep at old bin iold and new bin inew: skips the bin that lies
      wholly below the other, or adds the pair's shares to the new bin and moves past
      the bin that ends first, or refuses a pair that meets without a positive overlap
      or width. */
  method SweepStep(xold: seq<real>, yold: seq<real>, eold: seq<real>, xnew: seq<real>,
                   ynew: DoubleVector, enew: DoubleVector, distribution: bool, iold: nat, inew: nat)
    returns (outcome: Outcome, iold': nat, inew': nat)
    requires ynew != enew && iold < |yold| && inew < NumBins(xnew)
    requires SweepInvariant(xold, yold, eold, xnew, distribution, iold, inew, ynew.elems, enew.elems)
    modifies ynew, enew
    ensures outcome == Done || outcome == Failed(NoBinOverlap)
    ensures outcome == Failed(NoBinOverlap) ==>
      && Degenerate(xold, iold, xnew, inew) && (iold', inew') == (iold, inew)
      && ynew.elems == old(ynew.elems) && enew.elems == old(enew.elems)
    ensures outcome == Failed(NoBinOverlap) <==> Degenerate(xold, iold, xnew, inew)
    ensures xnew[inew + 1] <= xold[iold] ==> (iold', inew') == (iold, inew + 1)
    ensures !(xnew[inew + 1] <= xold[iold]) && xold[iold + 1] <= xnew[inew] ==> (iold', inew') == (iold + 1, inew)
    ensures outcome == Done && Meets(xold, iold, xnew, inew) ==>
      (iold', inew') == (if xnew[inew + 1] > xold[iold + 1] then (iold + 1, inew) else (iold, inew + 1))
    ensures outcome == Done ==> SweepInvariant(xold, yold, eold, xnew, distribution, iold', inew', ynew.elems, enew.elems)
  {
    var xoLow, xoHigh, xnLow, xnHigh := xold[iold], xold[iold + 1], xnew[inew], xnew[inew + 1];
    if xnHigh <= xoLow {
      // the new bin lies wholly at or below the old one
      InvariantSkipNew(xold, yold, eold, xnew, distribution, iold, inew, ynew.elems, enew.elems);
      return Done, iold, inew + 1;
    } else if xoHigh <= xnLow {
      // the old bin lies wholly at or below the new one
      InvariantSkipOld(xold, yold, eold, xnew, distribution, iold, inew, ynew.elems, enew.elems);
      return Done, iold + 1, inew;
    }
    var delta := Min(xoHigh, xnHigh) - Max(xoLow, xnLow);
    var width := xoHigh - xoLow;
    if delta <= 0.0 || width <= 0.0 {
      return Failed(NoBinOverlap), iold, inew;
    }
    InvariantShare(xold, yold, eold, xnew, distribution, iold, inew, ynew.elems, enew.elems, delta, width);
    ynew.elems := ynew.elems[inew := ynew.elems[inew] + ValueShareOf(yold[iold], delta, width, distribution)];
    enew.elems := enew.elems[inew := enew.elems[inew] + VarianceShareOf(eold[iold], delta, width, distribution)];
    if xnHigh > xoHigh {
      iold', inew' := iold + 1, inew;
    } else {
      iold', inew' := iold, inew + 1;
    }
    outcome := Done;
  }

  /** The sweep of the general rebin: walks the old and the new bins together,
      adding each meeting pair's share into the zeroed outputs. Values go into
      ynew; errors are kept as variances in enew. The ghost result counts the
      iterations. */
  method Sweep(xold: seq<real>, yold: seq<real>, eold: seq<real>, xnew: seq<real>,
               ynew: DoubleVector, enew: DoubleVector, distribution: bool)
    returns (outcome: Outcome, ghost steps: nat)
    requires ynew != enew && SameSize(xold, yold, eold)
    requires ynew.elems == Zeros(NumBins(xnew)) && enew.elems == Zeros(NumBins(xnew))
    modifies ynew, enew
    ensures |ynew.elems| == NumBins(xnew) && |enew.elems| == NumBins(xnew)
    ensures forall i :: 0 <= i < |enew.elems| ==> enew.elems[i] >= 0.0
    ensures outcome == Done || outcome == Failed(NoBinOverlap)
    ensures outcome == Failed(NoBinOverlap) ==>
      exists j, i :: 0 <= j < NumBins(xold) && 0 <= i < NumBins(xnew) && Degenerate(xold, j, xnew, i)
    ensures StrictlyIncreasing(xold) && StrictlyIncreasing(xnew) ==>
      && outcome == Done
      && (forall i :: 0 <= i < NumBins(xnew) ==>
            ynew.elems[i] == Gathered(xold, ValueDensities(xold, yold, distribution), xnew, i, |yold|))
      && (forall i :: 0 <= i < NumBins(xnew) ==>
            enew.elems[i] == Gathered(xold, VarianceDensities(xold, eold, distribution), xnew, i, |eold|))
    ensures steps <= NumBins(xold) + NumBins(xnew)
    ensures outcome == SweepPath(xold, xnew, 0, 0)
  {
    steps := 0;
    var nOld, nNew := |yold|, NumBins(xnew);
    ghost var mono := StrictlyIncreasing(xold) && StrictlyIncreasing(xnew);
    if mono {
      SweepStart(xold, ValueDensities(xold, yold, distribution), xnew);
      SweepStart(xold, VarianceDensities(xold, eold, distribution), xnew);
    }

    var iold: nat, inew: nat := 0, 0;
    while inew < nNew && iold < nOld
      invariant steps == iold + inew
      invariant SweepInvariant(xold, yold, eold, xnew, distribution, iold, inew, ynew.elems, enew.elems)
      invariant SweepPath(xold, xnew, iold, inew) == SweepPath(xold, xnew, 0, 0)
      decreases nOld - iold + nNew - inew
    {
      outcome, iold, inew := SweepStep(xold, yold, eold, xnew, ynew, enew, distribution, iold, inew);
      if outcome != Done {
        if mono {
          MeetingPairOverlaps(xold, iold, xnew, inew);
        }
        return outcome, steps;
      }
      steps := steps + 1;
    }

    if mono {
      SweepComplete(xold, ValueDensities(xold, yold, distribution), xnew, iold, inew);
      SweepComplete(xold, VarianceDensities(xold, eold, distribution), xnew, iold, inew);
    }
    outcome := Done;
  }

  /** The postpass for a distribution: divides every value by its new bin's width
      and every variance by that width squared (the source divides the square root
      of the variance by the width), refusing a bin of zero width. The bins before
      a refused one are already converted. */
  method DivideByWidths(xnew: seq<real>, ynew: DoubleVector, enew: DoubleVector) returns (outcome: Outcome)
    requires ynew != enew
    requires |ynew.elems| == NumBins(xnew) && |enew.elems| == NumBins(xnew)
    requires forall i :: 0 <= i < |enew.elems| ==> enew.elems[i] >= 0.0
    modifies ynew, enew
    ensures |ynew.elems| == NumBins(xnew) && |enew.elems| == NumBins(xnew)
    ensures forall i :: 0 <= i < |enew.elems| ==> enew.elems[i] >= 0.0
    ensures outcome == Done || outcome == Failed(ZeroWidthNewBin)
    ensures outcome == Failed(ZeroWidthNewBin) <==> exists i :: 0 <= i < NumBins(xnew) && Width(xnew, i) == 0.0
    ensures outcome == Done ==> forall i :: 0 <= i < NumBins(xnew) ==>
      && ynew.elems[i] == old(ynew.elems[i]) / Width(xnew, i)
      && enew.elems[i] == old(enew.elems[i]) / Width(xnew, i) / Width(xnew, i)
  {
    var n := NumBins(xnew);
    var i := 0;
    while i < n
      invariant 0 <= i <= n
      invariant |ynew.elems| == n && |enew.elems| == n
      invariant forall k :: 0 <= k < n ==> enew.elems[k] >= 0.0
      invariant forall k :: 0 <= k < i ==> Width(xnew, k) != 0.0
      invariant forall k :: 0 <= k < i ==>
        ynew.elems[k] == old(ynew.elems[k]) / Width(xnew, k)
        && enew.elems[k] == old(enew.elems[k]) / Width(xnew, k) / Width(xnew, k)
      invariant forall k :: i <= k < n ==> ynew.elems[k] == old(ynew.elems[k]) && enew.elems[k] == old(enew.elems[k])
    {
      var width := xnew[i + 1] - xnew[i];
      if width == 0.0 {
        assert Width(xnew, i) == 0.0;
        return Failed(ZeroWidthNewBin);
      }
      DivideTwiceNonNegative(enew.elems[i], width);
      ynew.elems := ynew.elems[i := ynew.elems[i] / width];
      enew.elems := enew.elems[i := enew.elems[i] / width / width];
      i := i + 1;
    }
    outcome := Done;
  }

  /** The general rebin: redistributes the old bins (values yold, errors eold,
      edges xold) onto the bins of xnew, writing values into ynew and variances
      into enew. Errors are kept as variances: where the source stores
      sqrt(v) / width the model stores v / width / width, and where it stores
      sqrt(v) the model stores v. The ghost result counts the iterations of the
      sweep. */
  method Rebin(xold: seq<real>, yold: seq<real>, eold: seq<real>, xnew: seq<real>,
               ynew: DoubleVector, enew: DoubleVector, distribution: bool)
    returns (outcome: Outcome, ghost steps: nat)
    requires ynew != enew
    modifies ynew, enew
    // the sizes are checked before either output is touched
    ensures outcome == Failed(DimensionMismatch) <==> !SameSize(xold, yold, eold)
    ensures !SameSize(xold, yold, eold) ==> ynew.elems == old(ynew.elems) && enew.elems == old(enew.elems)
    // otherwise both outputs have one slot per new bin and every variance is non-negative
    ensures SameSize(xold, yold, eold) ==> |ynew.elems| == NumBins(xnew) && |enew.elems| == NumBins(xnew)
    ensures SameSize(xold, yold, eold) ==> forall i :: 0 <= i < |enew.elems| ==> enew.elems[i] >= 0.0
    // "no bin overlap" is raised only for a pair that meets without a positive overlap or width
    ensures outcome == Failed(NoBinOverlap) ==>
      exists j, i :: 0 <= j < NumBins(xold) && 0 <= i < NumBins(xnew) && Degenerate(xold, j, xnew, i)
    // a zero-width new bin is refused only when converting a distribution
    ensures outcome == Failed(ZeroWidthNewBin) ==>
      distribution && exists i :: 0 <= i < NumBins(xnew) && Width(xnew, i) == 0.0
    ensures outcome == Done && distribution ==> forall i :: 0 <= i < NumBins(xnew) ==> Width(xnew, i) != 0.0
    // on strictly increasing axes the call succeeds with the overlap-weighted sums
    ensures SameSize(xold, yold, eold) && StrictlyIncreasing(xold) && StrictlyIncreasing(xnew) ==>
      && outcome == Done
      && ynew.elems == RebinnedValues(xold, yold, xnew, distribution)
      && enew.elems == RebinnedVariances(xold, eold, xnew, distribution)
    // each step of the sweep advances one cursor, so it takes at most one step per bin
    ensures steps <= NumBins(xold) + NumBins(xnew)
    // on any axes the call ends as the length check, the sweep's path and the width check decide
    ensures outcome == RebinOutcome(xold, yold, eold, xnew, distribution)
  {
    steps := 0;
    if !(|xold| == |yold| + 1 && |xold| == |eold| + 1) {
      return Failed(DimensionMismatch), steps;
    }
    ynew.elems := Zeros(NumBins(xnew));
    enew.elems := Zeros(NumBins(xnew));
    outcome, steps := Sweep(xold, yold, eold, xnew, ynew, enew, distribution);
    if outcome != Done {
      return;
    }
    ghost var mono := StrictlyIncreasing(xold) && StrictlyIncreasing(xnew);
    if distribution {
      if mono {
        forall i | 0 <= i < NumBins(xnew)
          ensures Width(xnew, i) != 0.0
        {
          assert xnew[i] < xnew[i + 1];
        }
      }
      outcome := DivideByWidths(xnew, ynew, enew);
    }
    // without a distribution the source only takes square roots, which the variances stand for
    if mono {
      assert ynew.elems == RebinnedValues(xold, yold, xnew, distribution);
      assert enew.elems == RebinnedVariances(xold, eold, xnew, distribution);
    }
  }
}
