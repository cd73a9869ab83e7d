/** What the single-pass rebin does and does not promise: with `addition` it only
    adds to what the buffers held, and on small axes it departs from the
    overlap-weighted sums of the general rebin, yields a negative variance, reads
    past the old axis, or drops the bin that straddles the first new edge. */
module SinglePassProperties {
  import opened Histogram
  import opened SinglePass

  /** `a` is `base` with `b` added cell by cell. */
  predicate Shifted(a: seq<real>, base: seq<real>, b: seq<real>)
  {
    |a| == |base| == |b| && forall i :: 0 <= i < |a| ==> a[i] == b[i] + base[i]
  }

  /** Two sweep states that differ only in what their buffers held to begin with. */
  predicate Offset(s1: Pass, s0: Pass, b: seq<real>, c: seq<real>)
  {
    && s1.iold == s0.iold && s1.inew == s0.inew && s1.frac == s0.frac && s1.fracE == s0.fracE
    && s1.phase == s0.phase && Shifted(s1.ys, s0.ys, b) && Shifted(s1.es, s0.es, c)
  }

  lemma ShiftedAddAt(a: seq<real>, base: seq<real>, b: seq<real>, k: nat, v: real)
    requires Shifted(a, base, b) && k < |a|
    ensures Shifted(AddAt(a, k, v), AddAt(base, k, v), b)
  {}

  lemma SpreadOffset(s1: Pass, s0: Pass, b: seq<real>, c: seq<real>, w: real)
    requires Offset(s1, s0, b, c) && 0 < s0.inew <= |s0.ys| && s0.inew <= |s0.es|
    ensures Offset(Spread(s1, w), Spread(s0, w), b, c)
  {
    ShiftedAddAt(s1.ys, s0.ys, b, s0.inew - 1, Portion(s0.frac, w));
    ShiftedAddAt(s1.es, s0.es, c, s0.inew - 1, Portion(s0.fracE, w));
  }

  /** One statement from two offset states leads to offset states, or stops both
      with the same outcome and offset buffers. */
  predicate StepsAlike(xold: seq<real>, yold: seq<real>, eold: seq<real>, xnew: seq<real>,
                       s1: Pass, s0: Pass, b: seq<real>, c: seq<real>)
    requires SameSize(xold, yold, eold) && Ascending(xold) && Valid(xold, xnew, s0) && Valid(xold, xnew, s1)
  {
    var t1, t0 := Step(xold, yold, eold, xnew, s1), Step(xold, yold, eold, xnew, s0);
    && t1.Next? == t0.Next?
    && (t0.Next? ==> Offset(t1.next, t0.next, b, c))
    && (t0.Stop? ==> t1.result.outcome == t0.result.outcome
                     && Shifted(t1.result.ys, t0.result.ys, b) && Shifted(t1.result.es, t0.result.es, c))
  }

  lemma OffsetValid(xold: seq<real>, xnew: seq<real>, s1: Pass, s0: Pass, b: seq<real>, c: seq<real>)
    requires Valid(xold, xnew, s0) && Offset(s1, s0, b, c)
    ensures Valid(xold, xnew, s1)
  {}

  lemma OuterOffset(xold: seq<real>, yold: seq<real>, eold: seq<real>, xnew: seq<real>,
                    s1: Pass, s0: Pass, b: seq<real>, c: seq<real>)
    requires SameSize(xold, yold, eold) && Ascending(xold) && Valid(xold, xnew, s0) && Offset(s1, s0, b, c)
    requires s0.phase == Outer
    ensures Valid(xold, xnew, s1) && StepsAlike(xold, yold, eold, xnew, s1, s0, b, c)
  {}

  lemma NewBodyOffset(xold: seq<real>, yold: seq<real>, eold: seq<real>, xnew: seq<real>,
                      s1: Pass, s0: Pass, b: seq<real>, c: seq<real>)
    requires SameSize(xold, yold, eold) && Ascending(xold) && Valid(xold, xnew, s0) && Offset(s1, s0, b, c)
    requires s0.phase == NewBody
    ensures Valid(xold, xnew, s1) && StepsAlike(xold, yold, eold, xnew, s1, s0, b, c)
  {
    if s0.iold != 0 {
      SpreadOffset(s1, s0, b, c, xnew[s0.inew] - xnew[s0.inew - 1]);
    }
  }

  lemma CarryOffset(xold: seq<real>, yold: seq<real>, eold: seq<real>, xnew: seq<real>,
                    s1: Pass, s0: Pass, b: seq<real>, c: seq<real>)
    requires SameSize(xold, yold, eold) && Ascending(xold) && Valid(xold, xnew, s0) && Offset(s1, s0, b, c)
    requires s0.phase == Carry
    ensures Valid(xold, xnew, s1) && StepsAlike(xold, yold, eold, xnew, s1, s0, b, c)
  {
    if s0.iold != 0 {
      SpreadOffset(s1, s0, b, c, xold[s0.iold] - xnew[s0.inew - 1]);
    }
  }

  lemma OldBodyOffset(xold: seq<real>, yold: seq<real>, eold: seq<real>, xnew: seq<real>,
                      s1: Pass, s0: Pass, b: seq<real>, c: seq<real>)
    requires SameSize(xold, yold, eold) && Ascending(xold) && Valid(xold, xnew, s0) && Offset(s1, s0, b, c)
    requires s0.phase == OldBody
    ensures Valid(xold, xnew, s1) && StepsAlike(xold, yold, eold, xnew, s1, s0, b, c)
  {
    ShiftedAddAt(s1.ys, s0.ys, b, s0.inew - 1, yold[s0.iold - 1]);
    ShiftedAddAt(s1.es, s0.es, c, s0.inew - 1, Squared(eold[s0.iold - 1]));
  }

  lemma RefreshOffset(xold: seq<real>, yold: seq<real>, eold: seq<real>, xnew: seq<real>,
                      s1: Pass, s0: Pass, b: seq<real>, c: seq<real>)
    requires SameSize(xold, yold, eold) && Ascending(xold) && Valid(xold, xnew, s0) && Offset(s1, s0, b, c)
    requires s0.phase == Refresh
    ensures Valid(xold, xnew, s1) && StepsAlike(xold, yold, eold, xnew, s1, s0, b, c)
  {
    if s0.iold + 1 < |xold| {
      var f := PerWidth(xold, s0.iold, yold[s0.iold]);
      var fE := PerWidth(xold, s0.iold, Squared(eold[s0.iold]));
      SpreadOffset(s1.(frac := f, fracE := fE), s0.(frac := f, fracE := fE), b, c, xnew[s0.inew] - xold[s0.iold - 1]);
    }
  }

  /** A statement adds the same amounts whatever the buffers hold. */
  lemma StepOffset(xold: seq<real>, yold: seq<real>, eold: seq<real>, xnew: seq<real>,
                   s1: Pass, s0: Pass, b: seq<real>, c: seq<real>)
    requires SameSize(xold, yold, eold) && Ascending(xold) && Valid(xold, xnew, s0) && Offset(s1, s0, b, c)
    ensures Valid(xold, xnew, s1) && StepsAlike(xold, yold, eold, xnew, s1, s0, b, c)
  {
    match s0.phase
    case Outer => OuterOffset(xold, yold, eold, xnew, s1, s0, b, c);
    case NewBody => NewBodyOffset(xold, yold, eold, xnew, s1, s0, b, c);
    case Carry => CarryOffset(xold, yold, eold, xnew, s1, s0, b, c);
    case OldBody => OldBodyOffset(xold, yold, eold, xnew, s1, s0, b, c);
    case Refresh => RefreshOffset(xold, yold, eold, xnew, s1, s0, b, c);
  }

  /** The whole sweep adds the same amounts whatever the buffers hold. */
  lemma {:induction false} RunOffset(xold: seq<real>, yold: seq<real>, eold: seq<real>, xnew: seq<real>,
                                     s1: Pass, s0: Pass, b: seq<real>, c: seq<real>)
    requires SameSize(xold, yold, eold) && Ascending(xold) && Valid(xold, xnew, s0) && Offset(s1, s0, b, c)
    ensures Valid(xold, xnew, s1)
    ensures var r1, r0 := Run(xold, yold, eold, xnew, s1), Run(xold, yold, eold, xnew, s0);
            r1.outcome == r0.outcome && Shifted(r1.ys, r0.ys, b) && Shifted(r1.es, r0.es, c)
    decreases Potential(xold, xnew, s0), Rank(s0.phase)
  {
    StepOffset(xold, yold, eold, xnew, s1, s0, b, c);
    var t1, t0 := Step(xold, yold, eold, xnew, s1), Step(xold, yold, eold, xnew, s0);
    if t0.Next? {
      RunOffset(xold, yold, eold, xnew, t1.next, t0.next, b, c);
    }
  }

  /** With `addition` the pass ends as it does without, and leaves in each buffer
      what it held plus what the pass without `addition` produces. */
  lemma {:induction false} AdditionOnlyAdds(xold: seq<real>, yold: seq<real>, eold: seq<real>, xnew: seq<real>,
                                            ynew: seq<real>, enew: seq<real>)
    requires Ascending(xold) && SameSize(xold, yold, eold) && 0 < |xnew|
    requires |ynew| == NumBins(xnew) && |enew| == NumBins(xnew)
    ensures var added, cleared := HistogramPass(xold, yold, eold, xnew, ynew, enew, true),
                                HistogramPass(xold, yold, eold, xnew, ynew, enew, false);
            added.outcome == cleared.outcome && Shifted(added.ys, cleared.ys, ynew) && Shifted(added.es, cleared.es, enew)
  {
    var zeros := Zeros(|xnew| - 1);
    var k := FirstGreater(xold, xnew[0]);
    assert Shifted(ynew, zeros, ynew) && Shifted(enew, zeros, enew);
    if k < |xold| {
      RunOffset(xold, yold, eold, xnew, Seed(xold, yold, eold, k, ynew, enew), Seed(xold, yold, eold, k, zeros, zeros), ynew, enew);
    }
  }
}

module SinglePassCases {
  import opened Histogram
  import opened SinglePass

  /** Without `addition`, on matching lengths and an old edge above the new axis's
      first, the pass is the sweep from the seed over zeroed buffers. */
  lemma PassFromSeed(xold: seq<real>, yold: seq<real>, eold: seq<real>, xnew: seq<real>, k: nat)
    requires Ascending(xold) && SameSize(xold, yold, eold) && 0 < |xnew|
    requires k == FirstGreater(xold, xnew[0]) && k < |xold|
    ensures HistogramPass(xold, yold, eold, xnew, [], [], false)
            == Run(xold, yold, eold, xnew, Seed(xold, yold, eold, k, Zeros(|xnew| - 1), Zeros(|xnew| - 1)))
  {}

  /** Unit old bins [0, 1] and [1, 2] holding 1 and 2, and the new bin [-1, 0.5]:
      the single pass gives 1, because when it reaches old edge 1 it spreads old
      bin 1's density over [0, 0.5], which lies in old bin 0 ... */
  lemma {:induction false} StraddlingBinMisread()
    ensures HistogramPass([0.0, 1.0, 2.0], [1.0, 2.0], [0.0, 0.0], [-1.0, 0.5], [], [], false)
            == PassResult(Done, [1.0], [0.0])
  {
    var xold, yold, eold, xnew := [0.0, 1.0, 2.0], [1.0, 2.0], [0.0, 0.0], [-1.0, 0.5];
    assert FirstGreater(xold, -1.0) == 0;
    var s0 := Seed(xold, yold, eold, 0, [0.0], [0.0]);
    assert s0 == Pass(0, 0, 0.0, 0.0, [0.0], [0.0], Outer);
    var s1 := Pass(0, 1, 0.0, 0.0, [0.0], [0.0], Carry);
    assert Step(xold, yold, eold, xnew, s0) == Next(s1);
    RunStep(xold, yold, eold, xnew, s0);
    var s2 := Pass(1, 1, 0.0, 0.0, [0.0], [0.0], Refresh);
    assert Step(xold, yold, eold, xnew, s1) == Next(s2);
    RunStep(xold, yold, eold, xnew, s1);
    var s3 := Pass(1, 1, 2.0, 0.0, [1.0], [0.0], Outer);
    assert PerWidth(xold, 1, 2.0) == 2.0 && PerWidth(xold, 1, Squared(0.0)) == 0.0;
    assert Step(xold, yold, eold, xnew, s2) == Next(s3);
    RunStep(xold, yold, eold, xnew, s2);
    assert Step(xold, yold, eold, xnew, s3) == Stop(PassResult(Done, [1.0], [0.0]));
    assert Zeros(1) == [0.0];
    PassFromSeed(xold, yold, eold, xnew, FirstGreater(xold, xnew[0]));
  }

  /** ... where the general rebin gives half of old bin 0, 0.5. */
  lemma {:induction false} StraddlingBinRebinned()
    ensures RebinnedValues([0.0, 1.0, 2.0], [1.0, 2.0], [-1.0, 0.5], false) == [0.5]
  {
    var xold, yold, xnew := [0.0, 1.0, 2.0], [1.0, 2.0], [-1.0, 0.5];
    var d := ValueDensities(xold, yold, false);
    var g := Gathered(xold, d, xnew, 0, 2);
    assert g == Gathered(xold, d, xnew, 0, 1) + d[1] * BinOverlap(xold, 1, xnew, 0);
    assert BinOverlap(xold, 1, xnew, 0) == 0.0;
    assert g == Gathered(xold, d, xnew, 0, 1);
    assert Gathered(xold, d, xnew, 0, 1) == d[0] * BinOverlap(xold, 0, xnew, 0);
    assert d[0] == 1.0 && BinOverlap(xold, 0, xnew, 0) == 0.5;
    assert g == 0.5;
    assert RebinnedValues(xold, yold, xnew, false)[0] == g;
  }

  lemma TensApart(xold: seq<real>)
    requires xold == [0.0, 10.0, 20.0, 30.0]
    ensures Ascending(xold)
  {
    assert xold[1..] == [10.0, 20.0, 30.0] && xold[1..][1..] == [20.0, 30.0];
    assert Ascending(xold[1..][1..]);
    assert Ascending(xold[1..]);
  }

  /** Old bins of width 10 with errors 0, 0, 1 and new bins [0, 1], [1, 2]: the
      refresh after old edge 10 multiplies the next bin's variance density by the
      width 2 - 10 of a stretch that runs backwards, leaving a negative variance
      (and the value 2 where the bin holds 1). */
  lemma {:induction false} NegativeVariance(xold: seq<real>, yold: seq<real>, eold: seq<real>, xnew: seq<real>)
    requires xold == [0.0, 10.0, 20.0, 30.0] && yold == [10.0, 10.0, 10.0] && eold == [0.0, 0.0, 1.0]
    requires xnew == [0.0, 1.0, 2.0]
    ensures Ascending(xold)
    ensures HistogramPass(xold, yold, eold, xnew, [], [], false) == PassResult(Done, [1.0, 2.0], [0.0, -0.8])
  {
    var zeros := [0.0, 0.0];
    TensApart(xold);
    assert FirstGreater(xold, xnew[0]) == 1 by {
      assert xold[1..] == [10.0, 20.0, 30.0];
    }
    var s0 := Seed(xold, yold, eold, 1, zeros, zeros);
    assert PerWidth(xold, 0, 10.0) == 1.0 && PerWidth(xold, 0, Squared(0.0)) == 0.0;
    assert s0 == Pass(1, 0, 1.0, 0.0, zeros, zeros, Outer);
    var s1 := Pass(1, 1, 1.0, 0.0, zeros, zeros, NewBody);
    assert Step(xold, yold, eold, xnew, s0) == Next(s1);
    RunStep(xold, yold, eold, xnew, s0);
    var s2 := Pass(1, 2, 1.0, 0.0, [1.0, 0.0], zeros, NewBody);
    assert Step(xold, yold, eold, xnew, s1) == Next(s2);
    RunStep(xold, yold, eold, xnew, s1);
    NegativeVarianceTail(xold, yold, eold, xnew);
    assert Zeros(2) == zeros;
    PassFromSeed(xold, yold, eold, xnew, 1);
  }

  /** The last three statements of the sweep above. */
  lemma {:induction false} NegativeVarianceTail(xold: seq<real>, yold: seq<real>, eold: seq<real>, xnew: seq<real>)
    requires xold == [0.0, 10.0, 20.0, 30.0] && yold == [10.0, 10.0, 10.0] && eold == [0.0, 0.0, 1.0]
    requires xnew == [0.0, 1.0, 2.0]
    ensures Ascending(xold)
    ensures Run(xold, yold, eold, xnew, Pass(1, 2, 1.0, 0.0, [1.0, 0.0], [0.0, 0.0], NewBody))
            == PassResult(Done, [1.0, 2.0], [0.0, -0.8])
  {
    TensApart(xold);
    var s2 := Pass(1, 2, 1.0, 0.0, [1.0, 0.0], [0.0, 0.0], NewBody);
    var s3 := Pass(1, 2, 1.0, 0.0, [1.0, 1.0], [0.0, 0.0], Carry);
    assert Step(xold, yold, eold, xnew, s2) == Next(s3);
    RunStep(xold, yold, eold, xnew, s2);
    var s4 := Pass(2, 2, 1.0, 0.0, [1.0, 10.0], [0.0, 0.0], Refresh);
    assert Step(xold, yold, eold, xnew, s3) == Next(s4);
    RunStep(xold, yold, eold, xnew, s3);
    var s5 := Pass(2, 2, 1.0, 0.1, [1.0, 2.0], [0.0, -0.8], Outer);
    assert PerWidth(xold, 2, 10.0) == 1.0 && PerWidth(xold, 2, Squared(1.0)) == 0.1;
    assert Step(xold, yold, eold, xnew, s4) == Next(s5);
    RunStep(xold, yold, eold, xnew, s4);
    assert Step(xold, yold, eold, xnew, s5) == Stop(PassResult(Done, [1.0, 2.0], [0.0, -0.8]));
  }

  /** A new axis that reaches past the old one: after adding the last whole old
      bin the sweep reads the edge after the old axis's last. */
  lemma {:induction false} ReadsPastOldAxis(xold: seq<real>, yold: seq<real>, eold: seq<real>, xnew: seq<real>)
    requires xold == [0.0, 1.0, 2.0] && yold == [1.0, 1.0] && eold == [0.0, 0.0] && xnew == [0.0, 3.0]
    ensures Ascending(xold)
    ensures HistogramPass(xold, yold, eold, xnew, [], [], false) == PassResult(Failed(OutOfRange), [2.0], [0.0])
  {
    assert FirstGreater(xold, xnew[0]) == 1 by {
      assert xold[1..] == [1.0, 2.0];
    }
    var s0 := Seed(xold, yold, eold, 1, [0.0], [0.0]);
    assert PerWidth(xold, 0, 1.0) == 1.0 && PerWidth(xold, 0, Squared(0.0)) == 0.0;
    assert s0 == Pass(1, 0, 1.0, 0.0, [0.0], [0.0], Outer);
    var s1 := Pass(1, 1, 1.0, 0.0, [0.0], [0.0], Carry);
    assert Step(xold, yold, eold, xnew, s0) == Next(s1);
    RunStep(xold, yold, eold, xnew, s0);
    var s2 := Pass(2, 1, 1.0, 0.0, [1.0], [0.0], OldBody);
    assert Step(xold, yold, eold, xnew, s1) == Next(s2);
    RunStep(xold, yold, eold, xnew, s1);
    var s3 := Pass(2, 1, 1.0, 0.0, [2.0], [0.0], Refresh);
    assert Step(xold, yold, eold, xnew, s2) == Next(s3);
    RunStep(xold, yold, eold, xnew, s2);
    assert Step(xold, yold, eold, xnew, s3) == Stop(PassResult(Failed(OutOfRange), [2.0], [0.0]));
    assert Zeros(1) == [0.0];
    PassFromSeed(xold, yold, eold, xnew, 1);
  }

  /** A new axis that starts inside the last old bin [0, 1] holding 5: the sweep
      stops at once, so the new bin [0.5, 0.75] keeps nothing ... */
  lemma {:induction false} LastOldBinDropped()
    ensures HistogramPass([0.0, 1.0], [5.0], [0.0], [0.5, 0.75], [], [], false) == PassResult(Done, [0.0], [0.0])
  {
    var xold, yold, eold, xnew := [0.0, 1.0], [5.0], [0.0], [0.5, 0.75];
    assert FirstGreater(xold, 0.5) == 1;
    var s0 := Seed(xold, yold, eold, 1, [0.0], [0.0]);
    assert Step(xold, yold, eold, xnew, s0) == Stop(PassResult(Done, [0.0], [0.0]));
    assert Zeros(1) == [0.0];
    PassFromSeed(xold, yold, eold, xnew, FirstGreater(xold, xnew[0]));
  }

  /** ... where the general rebin gives it a quarter of the old bin, 1.25. */
  lemma {:induction false} LastOldBinRebinned()
    ensures RebinnedValues([0.0, 1.0], [5.0], [0.5, 0.75], false) == [1.25]
  {
    var xold, yold, xnew := [0.0, 1.0], [5.0], [0.5, 0.75];
    var d := ValueDensities(xold, yold, false);
    var g := Gathered(xold, d, xnew, 0, 1);
    assert Gathered(xold, d, xnew, 0, 0) == 0.0;
    assert g == d[0] * BinOverlap(xold, 0, xnew, 0);
    assert d[0] == 5.0 && BinOverlap(xold, 0, xnew, 0) == 0.25;
    assert g == 1.25;
    assert RebinnedValues(xold, yold, xnew, false)[0] == g;
  }
}
