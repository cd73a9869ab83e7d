/** The loop bounds of the general rebin as they are written: the sweep runs
    while inew < |xnew| and iold < |xold|, and the distribution postpass while
    i < |xnew|, so both count edges where they mean bins. Only the cursors are
    followed here (the values never steer them); a read one past the end of an
    axis is the outcome `OutOfRange`. The model of the routine itself, in module
    Rebin, stops at the last bin instead. */
module RebinBounds {
  import opened Histogram
  import opened Rebin

  /** Where the sweep's cursors end when the loop runs under the written guard. */
  function WrittenSweep(xold: seq<real>, xnew: seq<real>, iold: nat, inew: nat): Outcome
    decreases |xold| - iold + |xnew| - inew
  {
    if !(inew < |xnew| && iold < |xold|) then Done
    else if iold + 1 == |xold| || inew + 1 == |xnew| then Failed(OutOfRange)
    else if xnew[inew + 1] <= xold[iold] then WrittenSweep(xold, xnew, iold, inew + 1)
    else if xold[iold + 1] <= xnew[inew] then WrittenSweep(xold, xnew, iold + 1, inew)
    else if Degenerate(xold, iold, xnew, inew) then Failed(NoBinOverlap)
    else if xnew[inew + 1] > xold[iold + 1] then WrittenSweep(xold, xnew, iold + 1, inew)
    else WrittenSweep(xold, xnew, iold, inew + 1)
  }

  /** Under the written guard the sweep never ends normally: a cursor that moves
      past its axis's last bin is still admitted by the guard and reads the edge
      after the last. On strictly increasing axes that read is how every call
      ends, where the model's Sweep reports Done. */
  lemma {:induction false} WrittenSweepOverruns(xold: seq<real>, xnew: seq<real>, iold: nat, inew: nat)
    requires iold < |xold| && inew < |xnew|
    ensures WrittenSweep(xold, xnew, iold, inew) == Failed(OutOfRange)
         || WrittenSweep(xold, xnew, iold, inew) == Failed(NoBinOverlap)
    ensures StrictlyIncreasing(xold) && StrictlyIncreasing(xnew) ==>
            WrittenSweep(xold, xnew, iold, inew) == Failed(OutOfRange)
    decreases |xold| - iold + |xnew| - inew
  {
    if iold + 1 == |xold| || inew + 1 == |xnew| {
    } else if xnew[inew + 1] <= xold[iold] {
      WrittenSweepOverruns(xold, xnew, iold, inew + 1);
    } else if xold[iold + 1] <= xnew[inew] {
      WrittenSweepOverruns(xold, xnew, iold + 1, inew);
    } else {
      if StrictlyIncreasing(xold) && StrictlyIncreasing(xnew) {
        MeetingPairOverlaps(xold, iold, xnew, inew);
      }
      if !Degenerate(xold, iold, xnew, inew) {
        if xnew[inew + 1] > xold[iold + 1] {
          WrittenSweepOverruns(xold, xnew, iold + 1, inew);
        } else {
          WrittenSweepOverruns(xold, xnew, iold, inew + 1);
        }
      }
    }
  }

  /** Where the distribution postpass ends when it runs while i < |xnew|. */
  function WrittenPostpass(xnew: seq<real>, i: nat): Outcome
    decreases |xnew| - i
  {
    if i >= |xnew| then Done
    else if i + 1 == |xnew| then Failed(OutOfRange)
    else if Width(xnew, i) == 0.0 then Failed(ZeroWidthNewBin)
    else WrittenPostpass(xnew, i + 1)
  }

  /** The written postpass reaches the width of a bin after the last one unless it
      refuses a zero-width bin first; the model's DivideByWidths, which stops at
      the last bin, reports Done exactly when no new bin has zero width. */
  lemma {:induction false} WrittenPostpassOverruns(xnew: seq<real>, i: nat)
    requires i < |xnew|
    ensures WrittenPostpass(xnew, i) == Failed(OutOfRange) <==>
            forall k :: i <= k < |xnew| - 1 ==> Width(xnew, k) != 0.0
    ensures WrittenPostpass(xnew, i) != Failed(OutOfRange) ==> WrittenPostpass(xnew, i) == Failed(ZeroWidthNewBin)
    decreases |xnew| - i
  {
    if i + 1 < |xnew| {
      WrittenPostpassOverruns(xnew, i + 1);
    }
  }
}
