/** The single-pass rebin of histogram data (`rebinHistogram`): one sweep over
    both edge axes that carries a density from old bin to new bin, optionally
    adding to what the output vectors already hold. The sweep is modelled as
    written, as a machine whose states are the points of its nested loops; the
    method runs the loops and is proved to end where the machine ends. */
module SinglePass {
  import opened Histogram

  /** The statement of the sweep the machine is about to execute. */
  datatype Phase =
    | Outer     // head of the outer loop: stop once either cursor is at its last edge
    | NewBody   // body of the new-edge loop: spread the carried density over a whole new bin
    | Carry     // add the rest of the carried old bin, up to its top edge
    | OldBody   // body of the old-edge loop: add a whole old bin
    | Refresh   // take the next old bin's density, add its part below the new edge

  /** Cursors into the two axes, the carried value and variance densities, the
      two output buffers and the phase. */
  datatype Pass = Pass(iold: nat, inew: nat, frac: real, fracE: real,
                       ys: seq<real>, es: seq<real>, phase: Phase)

  datatype PassResult = PassResult(outcome: Outcome, ys: seq<real>, es: seq<real>)

  datatype StepResult = Next(next: Pass) | Stop(result: PassResult)

  /** The first index whose edge lies strictly above `v`, or |x| when there is none. */
  function FirstGreater(x: seq<real>, v: real): (k: nat)
    ensures k <= |x|
    ensures forall j :: 0 <= j < k ==> x[j] <= v
    ensures k < |x| ==> x[k] > v
  {
    if |x| == 0 then 0
    else if x[0] > v then 0
    else 1 + FirstGreater(x[1..], v)
  }

  function AddAt(s: seq<real>, k: nat, v: real): (r: seq<real>)
    requires k < |s|
    ensures |r| == |s| && r[k] == s[k] + v
    ensures forall j :: 0 <= j < |s| && j != k ==> r[j] == s[j]
  {
    s[k := s[k] + v]
  }

  /** Each edge lies strictly above the one before it. Stated edge by edge, so
      that a proof looks only at the edges it names. */
  predicate Ascending(x: seq<real>)
  {
    |x| < 2 || (x[0] < x[1] && Ascending(x[1..]))
  }

  lemma {:induction false} AscendingGap(x: seq<real>, k: nat)
    requires Ascending(x) && k + 1 < |x|
    ensures x[k] < x[k + 1]
  {
    if k > 0 {
      AscendingGap(x[1..], k - 1);
    }
  }

  lemma {:induction false} AscendingIsStrictlyIncreasing(x: seq<real>)
    ensures Ascending(x) <==> StrictlyIncreasing(x)
  {
    if |x| >= 2 {
      AscendingIsStrictlyIncreasing(x[1..]);
      assert forall k :: 0 <= k < |x| - 1 ==> x[1..][k] == x[k + 1];
    }
  }

  /** An amount of old bin k spread evenly over the bin's width. */
  function PerWidth(xold: seq<real>, k: nat, amount: real): (d: real)
    requires Ascending(xold) && k + 1 < |xold|
    ensures d * Width(xold, k) == amount
  {
    AscendingGap(xold, k);
    amount / (xold[k + 1] - xold[k])
  }

  /** The squared error of a bin: its variance. */
  function Squared(e: real): real { e * e }

  /** The part of a density that falls on a stretch of the given width. */
  function Portion(density: real, width: real): real { density * width }

  /** Adds `w` times the carried densities to new bin inew - 1. */
  function Spread(s: Pass, w: real): Pass
    requires 0 < s.inew <= |s.ys| && s.inew <= |s.es|
  {
    s.(ys := AddAt(s.ys, s.inew - 1, Portion(s.frac, w)), es := AddAt(s.es, s.inew - 1, Portion(s.fracE, w)))
  }

  /** Every read and write the next statement makes is within bounds, except the
      one read that `Step` reports as `OutOfRange`. */
  predicate Valid(xold: seq<real>, xnew: seq<real>, s: Pass)
  {
    && s.iold < |xold| && s.inew < |xnew|
    && |s.ys| >= NumBins(xnew) && |s.es| >= NumBins(xnew)
    && (s.phase != Outer ==> 0 < s.inew)
    && (s.phase == NewBody || s.phase == Carry ==> s.iold + 1 < |xold|)
    && (s.phase == OldBody || s.phase == Refresh ==> 0 < s.iold)
  }

  /** Edges either cursor has still to pass. */
  function Potential(xold: seq<real>, xnew: seq<real>, s: Pass): nat
    requires Valid(xold, xnew, s)
  {
    (|xold| - s.iold) + (|xnew| - s.inew)
  }

  /** Statements of one outer iteration, counted down. */
  function Rank(p: Phase): nat
  {
    match p
    case Outer => 0
    case Refresh => 1
    case OldBody => 2
    case Carry => 2
    case NewBody => 3
  }

  /** The test of the new-edge loop, after the new cursor has advanced. */
  function AtNewEdge(xold: seq<real>, xnew: seq<real>, s: Pass): Pass
    requires s.iold < |xold| && s.inew < |xnew|
  {
    s.(phase := if xnew[s.inew] < xold[s.iold] then NewBody else Carry)
  }

  /** The test of the old-edge loop, after the old cursor has advanced. */
  function AtOldEdge(xold: seq<real>, xnew: seq<real>, s: Pass): Pass
    requires s.iold < |xold| && s.inew < |xnew|
  {
    s.(phase := if xold[s.iold] <= xnew[s.inew] then OldBody else Refresh)
  }

  /** One statement of the sweep. Each step advances a cursor or moves on to a
      later statement of the same iteration; only the outer loop's head finishes
      the sweep, and only the density refresh reads past the end of the old axis. */
  function Step(xold: seq<real>, yold: seq<real>, eold: seq<real>, xnew: seq<real>, s: Pass): (t: StepResult)
    requires SameSize(xold, yold, eold) && Ascending(xold) && Valid(xold, xnew, s)
    ensures t.Next? ==> Valid(xold, xnew, t.next)
    ensures t.Next? ==> Potential(xold, xnew, t.next) < Potential(xold, xnew, s)
                        || (Potential(xold, xnew, t.next) == Potential(xold, xnew, s)
                            && Rank(t.next.phase) < Rank(s.phase))
    ensures t.Next? ==> s.iold <= t.next.iold && s.inew <= t.next.inew
    ensures t.Next? ==> |t.next.ys| == |s.ys| && |t.next.es| == |s.es|
    ensures t.Stop? <==> (s.phase == Outer && (s.iold + 1 == |xold| || s.inew + 1 == |xnew|))
                         || (s.phase == Refresh && s.iold + 1 == |xold|)
    ensures t.Stop? ==> t.result.ys == s.ys && t.result.es == s.es
    ensures t.Stop? ==> t.result.outcome == (if s.phase == Outer then Done else Failed(OutOfRange))
  {
    match s.phase
    case Outer =>
      if s.iold + 1 == |xold| || s.inew + 1 == |xnew| then Stop(PassResult(Done, s.ys, s.es))
      else Next(AtNewEdge(xold, xnew, s.(inew := s.inew + 1)))
    case NewBody =>
      var s1 := if s.iold != 0 then Spread(s, xnew[s.inew] - xnew[s.inew - 1]) else s;
      if s.inew + 1 == |xnew| then Next(s1.(phase := Carry))
      else Next(AtNewEdge(xold, xnew, s1.(inew := s.inew + 1)))
    case Carry =>
      var s1 := if s.iold != 0 then Spread(s, xold[s.iold] - xnew[s.inew - 1]) else s;
      Next(AtOldEdge(xold, xnew, s1.(iold := s.iold + 1)))
    case OldBody =>
      var s1 := s.(ys := AddAt(s.ys, s.inew - 1, yold[s.iold - 1]),
                   es := AddAt(s.es, s.inew - 1, Squared(eold[s.iold - 1])));
      if s.iold + 1 == |xold| then Next(s1.(phase := Refresh))
      else Next(AtOldEdge(xold, xnew, s1.(iold := s.iold + 1)))
    case Refresh =>
      // the old cursor has just advanced, so the source's test of it against zero holds
      if s.iold + 1 == |xold| then Stop(PassResult(Failed(OutOfRange), s.ys, s.es))
      else
        var s1 := s.(frac := PerWidth(xold, s.iold, yold[s.iold]),
                     fracE := PerWidth(xold, s.iold, Squared(eold[s.iold])));
        Next(Spread(s1, xnew[s.inew] - xold[s.iold - 1]).(phase := Outer))
  }

  /** The sweep from `s` to its end. It keeps the buffers' lengths and ends either
      normally or on the read past the old axis. */
  function Run(xold: seq<real>, yold: seq<real>, eold: seq<real>, xnew: seq<real>, s: Pass): (r: PassResult)
    requires SameSize(xold, yold, eold) && Ascending(xold) && Valid(xold, xnew, s)
    ensures |r.ys| == |s.ys| && |r.es| == |s.es|
    ensures r.outcome == Done || r.outcome == Failed(OutOfRange)
    decreases Potential(xold, xnew, s), Rank(s.phase)
  {
    match Step(xold, yold, eold, xnew, s)
    case Stop(r) => r
    case Next(t) => Run(xold, yold, eold, xnew, t)
  }

  /** The state the sweep starts in once the first old edge above the new axis's
      first edge, at index k, is known: the carried densities are those of old bin
      k - 1, which straddles that first new edge, and nothing when k is 0. */
  function Seed(xold: seq<real>, yold: seq<real>, eold: seq<real>, k: nat, ys: seq<real>, es: seq<real>): (s: Pass)
    requires SameSize(xold, yold, eold) && Ascending(xold) && k < |xold|
    ensures s.iold == k && s.inew == 0 && s.phase == Outer && s.ys == ys && s.es == es
    ensures k == 0 ==> s.frac == 0.0 && s.fracE == 0.0
    ensures 0 < k ==> s.frac * Width(xold, k - 1) == yold[k - 1]
                      && s.fracE * Width(xold, k - 1) == Squared(eold[k - 1])
  {
    if k == 0 then Pass(0, 0, 0.0, 0.0, ys, es, Outer)
    else Pass(k, 0, PerWidth(xold, k - 1, yold[k - 1]), PerWidth(xold, k - 1, Squared(eold[k - 1])), ys, es, Outer)
  }

  /** What the single-pass rebin leaves behind: its outcome and the two output
      buffers (the second holding variances). Mismatched input lengths fail first
      and touch nothing; an empty new axis fails on the resize or the read of its
      first edge; no old edge above the first new edge fails after the outputs
      were reset; otherwise the sweep runs from the seed. */
  function HistogramPass(xold: seq<real>, yold: seq<real>, eold: seq<real>, xnew: seq<real>,
                         ynew: seq<real>, enew: seq<real>, addition: bool): (r: PassResult)
    requires Ascending(xold)
    requires addition ==> |ynew| >= NumBins(xnew) && |enew| >= NumBins(xnew)
    ensures r.outcome == Failed(DimensionMismatch) <==> !SameSize(xold, yold, eold)
    ensures !SameSize(xold, yold, eold) ==> r.ys == ynew && r.es == enew
    ensures r.outcome != Failed(NoBinOverlap) && r.outcome != Failed(ZeroWidthNewBin)
    ensures SameSize(xold, yold, eold) && 0 < |xnew| ==>
              (r.outcome == Failed(NoOverlap) <==> forall k :: 0 <= k < |xold| ==> xold[k] <= xnew[0])
    ensures SameSize(xold, yold, eold) && 0 < |xnew| && !addition ==>
              |r.ys| == NumBins(xnew) && |r.es| == NumBins(xnew)
    ensures SameSize(xold, yold, eold) && addition ==> |r.ys| == |ynew| && |r.es| == |enew|
  {
    if !SameSize(xold, yold, eold) then PassResult(Failed(DimensionMismatch), ynew, enew)
    else if |xnew| == 0 then
      if addition then PassResult(Failed(OutOfRange), ynew, enew)
      else PassResult(Failed(OutOfRange), [], [])
    else
      var ys := if addition then ynew else Zeros(|xnew| - 1);
      var es := if addition then enew else Zeros(|xnew| - 1);
      var k := FirstGreater(xold, xnew[0]);
      if k == |xold| then PassResult(Failed(NoOverlap), ys, es)
      else Run(xold, yold, eold, xnew, Seed(xold, yold, eold, k, ys, es))
  }

  /** A step that does not finish the sweep leaves its result unchanged. */
  lemma RunStep(xold: seq<real>, yold: seq<real>, eold: seq<real>, xnew: seq<real>, s: Pass)
    requires SameSize(xold, yold, eold) && Ascending(xold) && Valid(xold, xnew, s)
    requires Step(xold, yold, eold, xnew, s).Next?
    ensures Run(xold, yold, eold, xnew, s) == Run(xold, yold, eold, xnew, Step(xold, yold, eold, xnew, s).next)
  {}

  // One lemma per statement of the sweep, spelling out the state it leads to in
  // the terms the method's variables use.

  lemma OuterStep(xold: seq<real>, yold: seq<real>, eold: seq<real>, xnew: seq<real>,
                  iold: nat, inew: nat, frac: real, fracE: real, ys: seq<real>, es: seq<real>)
    requires SameSize(xold, yold, eold) && Ascending(xold)
    requires Valid(xold, xnew, Pass(iold, inew, frac, fracE, ys, es, Outer))
    requires iold + 1 != |xold| && inew + 1 != |xnew|
    ensures Step(xold, yold, eold, xnew, Pass(iold, inew, frac, fracE, ys, es, Outer))
            == Next(AtNewEdge(xold, xnew, Pass(iold, inew + 1, frac, fracE, ys, es, Outer)))
  {}

  lemma NewBodyStep(xold: seq<real>, yold: seq<real>, eold: seq<real>, xnew: seq<real>,
                    iold: nat, inew: nat, frac: real, fracE: real, ys: seq<real>, es: seq<real>,
                    w: real, ys1: seq<real>, es1: seq<real>)
    requires SameSize(xold, yold, eold) && Ascending(xold)
    requires iold < |xold| && inew < |xnew|
    requires Valid(xold, xnew, AtNewEdge(xold, xnew, Pass(iold, inew, frac, fracE, ys, es, Outer)))
    requires xnew[inew] < xold[iold]
    requires iold == 0 ==> ys1 == ys && es1 == es
    requires iold != 0 ==> w == xnew[inew] - xnew[inew - 1]
                           && ys1 == AddAt(ys, inew - 1, Portion(frac, w))
                           && es1 == AddAt(es, inew - 1, Portion(fracE, w))
    ensures Step(xold, yold, eold, xnew, AtNewEdge(xold, xnew, Pass(iold, inew, frac, fracE, ys, es, Outer)))
            == Next(if inew + 1 == |xnew| then Pass(iold, inew, frac, fracE, ys1, es1, Carry)
                    else AtNewEdge(xold, xnew, Pass(iold, inew + 1, frac, fracE, ys1, es1, Outer)))
  {}

  lemma CarryStep(xold: seq<real>, yold: seq<real>, eold: seq<real>, xnew: seq<real>,
                  iold: nat, inew: nat, frac: real, fracE: real, ys: seq<real>, es: seq<real>,
                  w: real, ys1: seq<real>, es1: seq<real>)
    requires SameSize(xold, yold, eold) && Ascending(xold)
    requires Valid(xold, xnew, Pass(iold, inew, frac, fracE, ys, es, Carry))
    requires iold == 0 ==> ys1 == ys && es1 == es
    requires iold != 0 ==> w == xold[iold] - xnew[inew - 1]
                           && ys1 == AddAt(ys, inew - 1, Portion(frac, w))
                           && es1 == AddAt(es, inew - 1, Portion(fracE, w))
    ensures Step(xold, yold, eold, xnew, Pass(iold, inew, frac, fracE, ys, es, Carry))
            == Next(AtOldEdge(xold, xnew, Pass(iold + 1, inew, frac, fracE, ys1, es1, Outer)))
  {}

  lemma OldBodyStep(xold: seq<real>, yold: seq<real>, eold: seq<real>, xnew: seq<real>,
                    iold: nat, inew: nat, frac: real, fracE: real, ys: seq<real>, es: seq<real>)
    requires SameSize(xold, yold, eold) && Ascending(xold)
    requires iold < |xold| && inew < |xnew|
    requires Valid(xold, xnew, AtOldEdge(xold, xnew, Pass(iold, inew, frac, fracE, ys, es, Outer)))
    requires xold[iold] <= xnew[inew]
    ensures Step(xold, yold, eold, xnew, AtOldEdge(xold, xnew, Pass(iold, inew, frac, fracE, ys, es, Outer)))
            == Next(if iold + 1 == |xold|
                    then Pass(iold, inew, frac, fracE, AddAt(ys, inew - 1, yold[iold - 1]), AddAt(es, inew - 1, Squared(eold[iold - 1])), Refresh)
                    else AtOldEdge(xold, xnew, Pass(iold + 1, inew, frac, fracE, AddAt(ys, inew - 1, yold[iold - 1]), AddAt(es, inew - 1, Squared(eold[iold - 1])), Outer)))
  {}

  lemma RefreshStep(xold: seq<real>, yold: seq<real>, eold: seq<real>, xnew: seq<real>,
                    iold: nat, inew: nat, frac: real, fracE: real, ys: seq<real>, es: seq<real>,
                    gap: real, f: real, fE: real, w: real)
    requires SameSize(xold, yold, eold) && Ascending(xold)
    requires Valid(xold, xnew, Pass(iold, inew, frac, fracE, ys, es, Refresh))
    requires iold + 1 < |xold|
    requires gap == xold[iold + 1] - xold[iold] && gap != 0.0
    requires f == yold[iold] / gap && fE == Squared(eold[iold]) / gap
    requires w == xnew[inew] - xold[iold - 1]
    ensures Step(xold, yold, eold, xnew, Pass(iold, inew, frac, fracE, ys, es, Refresh))
            == Next(Pass(iold, inew, f, fE, AddAt(ys, inew - 1, Portion(f, w)), AddAt(es, inew - 1, Portion(fE, w)), Outer))
  {}

  /** The new-edge loop, entered with the new cursor just advanced: while the new
      edge lies below the old edge, the carried densities are spread over the
      whole new bin below it. It leaves the cursor on the first new edge at or
      above the old edge, or on the last new edge, where the sweep ends as it
      would have from the entry state `p0`. */
  method SpreadOverNewBins(xold: seq<real>, yold: seq<real>, eold: seq<real>, xnew: seq<real>,
                           iold: nat, inew0: nat, frac: real, fracE: real,
                           ynew: DoubleVector, enew: DoubleVector, ghost p0: Pass) returns (inew: nat, ghost p: Pass)
    requires ynew != enew
    requires SameSize(xold, yold, eold) && Ascending(xold)
    requires iold + 1 < |xold| && 0 < inew0 < |xnew|
    requires p0 == AtNewEdge(xold, xnew, Pass(iold, inew0, frac, fracE, ynew.elems, enew.elems, Outer))
    requires Valid(xold, xnew, p0)
    modifies ynew, enew
    ensures inew0 <= inew < |xnew|
    ensures p == Pass(iold, inew, frac, fracE, ynew.elems, enew.elems, Carry) && Valid(xold, xnew, p)
    ensures Run(xold, yold, eold, xnew, p) == Run(xold, yold, eold, xnew, p0)
  {
    inew, p := inew0, p0;
    while xnew[inew] < xold[iold]
      invariant inew0 <= inew < |xnew|
      invariant p == AtNewEdge(xold, xnew, Pass(iold, inew, frac, fracE, ynew.elems, enew.elems, Outer))
      invariant Valid(xold, xnew, p)
      invariant Run(xold, yold, eold, xnew, p) == Run(xold, yold, eold, xnew, p0)
      decreases |xnew| - inew
    {
      RunStep(xold, yold, eold, xnew, p);
      ghost var next := Step(xold, yold, eold, xnew, p).next;
      ghost var ys, es, w := ynew.elems, enew.elems, 0.0;
      if iold != 0 {
        var width := xnew[inew] - xnew[inew - 1];
        ynew.elems := AddAt(ynew.elems, inew - 1, Portion(frac, width));
        enew.elems := AddAt(enew.elems, inew - 1, Portion(fracE, width));
        w := width;
      }
      NewBodyStep(xold, yold, eold, xnew, iold, inew, frac, fracE, ys, es, w, ynew.elems, enew.elems);
      if inew + 1 == |xnew| {
        p := next;
        return;
      }
      inew := inew + 1;
      p := next;
    }
  }

  /** The old-edge loop, entered with the old cursor just advanced: while the old
      edge lies at or below the new edge, the whole old bin below it goes into the
      new bin below the new edge. It leaves the cursor on the first old edge above
      the new edge, or on the last old edge, where the sweep ends as it would have
      from the entry state `p0`. */
  method AddOldBins(xold: seq<real>, yold: seq<real>, eold: seq<real>, xnew: seq<real>,
                    iold0: nat, inew: nat, frac: real, fracE: real,
                    ynew: DoubleVector, enew: DoubleVector, ghost p0: Pass) returns (iold: nat, ghost p: Pass)
    requires ynew != enew
    requires SameSize(xold, yold, eold) && Ascending(xold)
    requires 0 < iold0 < |xold| && 0 < inew < |xnew|
    requires p0 == AtOldEdge(xold, xnew, Pass(iold0, inew, frac, fracE, ynew.elems, enew.elems, Outer))
    requires Valid(xold, xnew, p0)
    modifies ynew, enew
    ensures iold0 <= iold < |xold|
    ensures p == Pass(iold, inew, frac, fracE, ynew.elems, enew.elems, Refresh) && Valid(xold, xnew, p)
    ensures Run(xold, yold, eold, xnew, p) == Run(xold, yold, eold, xnew, p0)
  {
    iold, p := iold0, p0;
    while xold[iold] <= xnew[inew]
      invariant iold0 <= iold < |xold|
      invariant p == AtOldEdge(xold, xnew, Pass(iold, inew, frac, fracE, ynew.elems, enew.elems, Outer))
      invariant Valid(xold, xnew, p)
      invariant Run(xold, yold, eold, xnew, p) == Run(xold, yold, eold, xnew, p0)
      decreases |xold| - iold
    {
      RunStep(xold, yold, eold, xnew, p);
      OldBodyStep(xold, yold, eold, xnew, iold, inew, frac, fracE, ynew.elems, enew.elems);
      ghost var next := Step(xold, yold, eold, xnew, p).next;
      ynew.elems := AddAt(ynew.elems, inew - 1, yold[iold - 1]);
      enew.elems := AddAt(enew.elems, inew - 1, Squared(eold[iold - 1]));
      if iold + 1 == |xold| {
        p := next;
        return;
      }
      iold := iold + 1;
      p := next;
    }
  }

  /** The outer loop of the sweep, from the state `p0` its variables hold: it ends
      as the machine does from there. */
  method Sweep(xold: seq<real>, yold: seq<real>, eold: seq<real>, xnew: seq<real>,
               iold0: nat, frac0: real, fracE0: real,
               ynew: DoubleVector, enew: DoubleVector, ghost p0: Pass) returns (outcome: Outcome)
    requires ynew != enew
    requires SameSize(xold, yold, eold) && Ascending(xold)
    requires p0 == Pass(iold0, 0, frac0, fracE0, ynew.elems, enew.elems, Outer) && Valid(xold, xnew, p0)
    modifies ynew, enew
    ensures PassResult(outcome, ynew.elems, enew.elems) == Run(xold, yold, eold, xnew, p0)
  {
    var sizeXold, sizeXnew := |xold|, |xnew|;
    var iold: nat, inew: nat, frac, fracE := iold0, 0, frac0, fracE0;
    ghost var p := p0;
    while true
      invariant iold < sizeXold && inew < sizeXnew
      invariant p == Pass(iold, inew, frac, fracE, ynew.elems, enew.elems, Outer)
      invariant Valid(xold, xnew, p)
      invariant Run(xold, yold, eold, xnew, p) == Run(xold, yold, eold, xnew, p0)
      decreases sizeXold - iold + sizeXnew - inew
    {
      if iold + 1 == sizeXold || inew + 1 == sizeXnew {
        break;
      }
      RunStep(xold, yold, eold, xnew, p);
      OuterStep(xold, yold, eold, xnew, iold, inew, frac, fracE, ynew.elems, enew.elems);
      inew, p := SpreadOverNewBins(xold, yold, eold, xnew, iold, inew + 1, frac, fracE, ynew, enew,
                                   Step(xold, yold, eold, xnew, p).next);
      RunStep(xold, yold, eold, xnew, p);
      ghost var next := Step(xold, yold, eold, xnew, p).next;
      ghost var ys, es, w := ynew.elems, enew.elems, 0.0;
      if iold != 0 {
        var width := xold[iold] - xnew[inew - 1];
        ynew.elems := AddAt(ynew.elems, inew - 1, Portion(frac, width));
        enew.elems := AddAt(enew.elems, inew - 1, Portion(fracE, width));
        w := width;
      }
      CarryStep(xold, yold, eold, xnew, iold, inew, frac, fracE, ys, es, w, ynew.elems, enew.elems);
      iold, p := AddOldBins(xold, yold, eold, xnew, iold + 1, inew, frac, fracE, ynew, enew, next);
      // the old cursor has just advanced, so the source's test of it against zero holds
      if iold + 1 == sizeXold {
        // the next old edge does not exist
        return Failed(OutOfRange);
      }
      RunStep(xold, yold, eold, xnew, p);
      ghost var q := p;
      AscendingGap(xold, iold);
      var width := xold[iold + 1] - xold[iold];
      ghost var gap := width;
      frac := yold[iold] / width;
      fracE := Squared(eold[iold]) / width;
      width := xnew[inew] - xold[iold - 1];
      RefreshStep(xold, yold, eold, xnew, iold, inew, q.frac, q.fracE, ynew.elems, enew.elems, gap, frac, fracE, width);
      ynew.elems := AddAt(ynew.elems, inew - 1, Portion(frac, width));
      enew.elems := AddAt(enew.elems, inew - 1, Portion(fracE, width));
      p := Step(xold, yold, eold, xnew, q).next;
    }
    outcome := Done;
  }

  lemma SeedAfterGap(xold: seq<real>, yold: seq<real>, eold: seq<real>, k: nat, ys: seq<real>, es: seq<real>,
                     gap: real, f: real, fE: real)
    requires SameSize(xold, yold, eold) && Ascending(xold) && 0 < k < |xold|
    requires gap == xold[k] - xold[k - 1] && gap != 0.0
    requires f == yold[k - 1] / gap && fE == Squared(eold[k - 1]) / gap
    ensures Seed(xold, yold, eold, k, ys, es) == Pass(k, 0, f, fE, ys, es, Outer)
  {}

  /** The single-pass rebin. Without `addition` the outputs are reset to zeros of
      the new axis's bin count first; with it the sweep adds to what they hold.
      Errors are accumulated as variances. */
  method RebinHistogram(xold: seq<real>, yold: seq<real>, eold: seq<real>, xnew: seq<real>,
                        ynew: DoubleVector, enew: DoubleVector, addition: bool) returns (outcome: Outcome)
    requires ynew != enew
    requires Ascending(xold)
    requires addition ==> |ynew.elems| >= NumBins(xnew) && |enew.elems| >= NumBins(xnew)
    modifies ynew, enew
    ensures PassResult(outcome, ynew.elems, enew.elems)
            == HistogramPass(xold, yold, eold, xnew, old(ynew.elems), old(enew.elems), addition)
  {
    var sizeXold, sizeXnew := |xold|, |xnew|;
    if sizeXold != |yold| + 1 || sizeXold != |eold| + 1 {
      return Failed(DimensionMismatch);
    }
    if !addition {
      ynew.elems := [];
      enew.elems := [];
      if sizeXnew == 0 {
        // a resize to |xnew| - 1 elements cannot succeed
        return Failed(OutOfRange);
      }
      ynew.elems := Zeros(sizeXnew - 1);
      enew.elems := Zeros(sizeXnew - 1);
    }
    if sizeXnew == 0 {
      // the first new edge does not exist
      return Failed(OutOfRange);
    }
    var iold := FirstGreater(xold, xnew[0]);
    if iold == sizeXold {
      return Failed(NoOverlap);
    }
    var frac, fracE := 0.0, 0.0;
    if iold != 0 {
      AscendingGap(xold, iold - 1);
      var width := xold[iold] - xold[iold - 1];
      frac := yold[iold - 1] / width;
      fracE := Squared(eold[iold - 1]) / width;
      SeedAfterGap(xold, yold, eold, iold, ynew.elems, enew.elems, width, frac, fracE);
    }
    outcome := Sweep(xold, yold, eold, xnew, iold, frac, fracE, ynew, enew,
                     Seed(xold, yold, eold, iold, ynew.elems, enew.elems));
  }
}
