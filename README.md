# Histogram rebinning, PEARL file naming and Elwin output bookkeeping

This project models, in Dafny, three pieces of the Mantid neutron-scattering
framework and proves properties of them.

**The 1-D histogram rebinning engine (`VectorHelper.cpp`).** It has two routines.

- `rebin` redistributes counts and their errors from one bin-edge axis onto
  another. A two-cursor sweep hands each overlapping pair of an old bin and a
  new bin a share in proportion to their overlap. For a distribution (values
  per unit width) a final pass divides by the new widths. The model
  (modules `Histogram`, `Rebin`, `RebinProperties`) is an imperative method
  over two in-place output vectors. On strictly increasing axes it is proved
  equal to an independent specification, the overlap-weighted sums
  `RebinnedValues`/`RebinnedVariances`. On those sums the model proves:
  - count and variance conservation when the new axis spans the old one;
  - the identity rebin;
  - small cases: a bin split in two, a rate rebinned onto a wider bin, axes
    that do not meet, and an old axis with a repeated edge, which is refused.
- `rebinHistogram` is a faster single forward pass. It seeds the old cursor at
  the first old edge above the new axis's start, carries a per-width density
  from bin to bin, and can add to what the outputs already hold. The model
  (modules `SinglePass`, `SinglePassProperties`, `SinglePassCases`) follows the
  code as written. A function `Run` treats the pass as a machine whose states
  are the points of its nested loops, and the method `RebinHistogram` runs the
  real loops and is proved to end exactly where the machine ends. Then:
  - `SinglePassProperties.AdditionOnlyAdds` proves that addition mode only adds
    to what the buffers held: its result is the cleared-buffer result plus the
    old contents, slot by slot.
  - `SinglePassCases` evaluates the pass on small inputs. Next to each case it
    shows what the general rebin gives on the same input. These are the
    defects listed under "## Findings".

`rebin`, and `rebinHistogram` when it is not adding, report their errors as
square roots of accumulated variances. In addition mode `rebinHistogram`
skips the square root and leaves the accumulated variances in its error
buffer (VectorHelper.cpp:185-191). The model keeps the variances throughout:
where the source stores `sqrt(v)` the model stores `v`, and where it stores
`sqrt(v) / w` the model stores `v / w / w`. In addition mode the model's error
buffer is therefore the source's own.

**Run-number bookkeeping of the PEARL powder scripts (`pearl_routines.py`).**
Module `Pearl` covers:
- the raw file name and path of a run: prefix "PRL" and 5 digits before run
  71009, "PEARL" and 8 digits from it on, zero-padded and never truncated;
- the monitor spectrum;
- the focusing ranges of each instrument version;
- the processed output file names;
- the wavelength range.

The scripts' module-level settings (focusing mode and data directories) are
parameters.

**The Elwin tab's model (`ElwinModel.cpp`).** Module `Elwin` has a class
with the tab's settings and its map of output workspace names, and covers:
- the setters;
- the derivation of the four output names from a base name;
- the comma-joined report of those names, which fails when a name is missing;
- the rule that decides which optional properties the elastic-window algorithm
  receives;
- the comma-terminated spectrum list handed to spectrum extraction.

Module `Strings` holds the decimal rendering of integers and comma-separated
lists. It also holds their parsers, so the contracts can state that a rendered
name or list reads back as what was written.

## Model

| member | source | states |
|---|---|---|
| Histogram.Overlap | Code/Mantid/Kernel/src/VectorHelper.cpp:38-42 | the overlap of two bins is never negative, never exceeds the first bin's width, and is zero for bins that lie apart |
| Rebin.MeetingPairOverlaps | Code/Mantid/Kernel/src/VectorHelper.cpp:32-46 | on strictly increasing axes a pair that neither skip test separates has a positive overlap, so "no bin overlap detected" is never raised there, and the computed delta is the pair's overlap |
| Rebin.SweepStep | Code/Mantid/Kernel/src/VectorHelper.cpp:28-75 | one sweep step refuses the pair with "no bin overlap detected" if and only if the pair meets (neither bin ends at or below the other's start) with an overlap or an old width that is zero or negative, and then changes nothing; otherwise it moves the new cursor when the new bin ends at or below the old bin's start, the old cursor when the old bin ends at or below the new bin's start, and for a meeting pair the cursor whose bin ends first (the new one on a tie); it keeps the sweep invariant (each new bin so far holds its overlap-weighted sum) |
| Rebin.Sweep | Code/Mantid/Kernel/src/VectorHelper.cpp:23-77 | the sweep ends exactly as SweepPath, the cursor path over the bins, says from the first pair (so it fails if and only if that path reaches a degenerate pair); it takes at most one step per old and new bin, leaves every variance non-negative, and on strictly increasing axes ends with every new bin holding the overlap-weighted sum of old values and of old variances |
| Rebin.DivideByWidths | Code/Mantid/Kernel/src/VectorHelper.cpp:79-99 | the distribution postpass fails exactly when some new bin has zero width; otherwise every value is divided by its bin width and every variance by the width squared |
| Rebin.SweepPathRefusal | Code/Mantid/Kernel/src/VectorHelper.cpp:26-77 | if the sweep's cursor path from a pair of bins ends in "no bin overlap detected", some pair of bins at or after the starting cursors meets with an overlap or an old width that is zero or negative |
| Rebin.SweepPathOnIncreasingAxes | Code/Mantid/Kernel/src/VectorHelper.cpp:26-77 | on strictly increasing axes the sweep's cursor path always ends normally |
| Rebin.Rebin | Code/Mantid/Kernel/src/VectorHelper.cpp:10-107 | the outcome on any axes is RebinOutcome: a length mismatch first, then the sweep's path, then a zero-width new bin for a distribution; a length mismatch is reported before either output is touched; otherwise the outputs have one slot per new bin and every variance is non-negative; a zero-width new bin is refused only for a distribution; on strictly increasing axes the call succeeds with exactly RebinnedValues and RebinnedVariances |
| RebinProperties.CountsConserved | Code/Mantid/Kernel/src/VectorHelper.cpp:59-75 | rebinning counts onto an axis that spans the old one keeps the total count |
| RebinProperties.VariancesConserved | Code/Mantid/Kernel/src/VectorHelper.cpp:59-75 | rebinning counts onto an axis that spans the old one keeps the total variance |
| RebinProperties.GatheredTotal | Code/Mantid/Kernel/src/VectorHelper.cpp:36-75 | when the new axis spans the old one, the new bins' overlap-weighted sums add up to the old densities times the old widths |
| RebinProperties.IdentityValues | Code/Mantid/Kernel/src/VectorHelper.cpp:52-99 | rebinning onto the old axis itself returns the old values, for distributions and for counts |
| RebinProperties.RepeatedEdgeRefused | Code/Mantid/Kernel/src/VectorHelper.cpp:32-46 | the old axis [0, 1, 1, 2] rebinned onto [0, 2] is refused with "no bin overlap detected", for a distribution and for counts |
| RebinProperties.IdentityVariances | Code/Mantid/Kernel/src/VectorHelper.cpp:52-104 | rebinning onto the old axis itself returns the old squared errors, for both conventions |
| RebinProperties.SplitBin | Code/Mantid/Kernel/src/VectorHelper.cpp:59-67 | 12 counts over [0, 2] split onto [0, 1] and [1, 2] give 6 and 6 |
| RebinProperties.SplitBinVariance | Code/Mantid/Kernel/src/VectorHelper.cpp:65-67 | each half of a split bin carries half of its variance |
| RebinProperties.DistributionScaling | Code/Mantid/Kernel/src/VectorHelper.cpp:52-58 | a rate of 10 per unit over [0, 2] rebinned as a distribution onto [0, 2] stays 10, not 20 |
| RebinProperties.NoOverlapGivesZeros | Code/Mantid/Kernel/src/VectorHelper.cpp:32-35 | a new bin that misses the old axis receives nothing |
| RebinBounds.WrittenSweepOverruns | Code/Mantid/Kernel/src/VectorHelper.cpp:26-31 | under the written loop guard every sweep either refuses a degenerate pair or reads an edge past the end of an axis, and on strictly increasing axes it always reads past the end |
| RebinBounds.WrittenPostpassOverruns | Code/Mantid/Kernel/src/VectorHelper.cpp:84-96 | the written distribution postpass reads past the end of the new axis exactly when no new bin has zero width, and otherwise refuses a zero-width bin |
| SinglePass.FirstGreater | Code/Mantid/Kernel/src/VectorHelper.cpp:127-130 | the index of the first edge strictly above the value: every edge before it is at or below the value |
| SinglePass.Seed | Code/Mantid/Kernel/src/VectorHelper.cpp:130-144 | the sweep starts at old edge k and new edge 0; the carried densities are zero when k is 0 and otherwise give back old bin k - 1's value and squared error over its width |
| SinglePass.Step | Code/Mantid/Kernel/src/VectorHelper.cpp:145-183 | each statement of the sweep stays in bounds and advances a cursor or moves on within the iteration, never moving a cursor back or resizing a buffer; the sweep stops normally only at the outer loop's head with a cursor on its last edge, and fails only at the density refresh when the old cursor is on the last old edge |
| SinglePass.Run | Code/Mantid/Kernel/src/VectorHelper.cpp:145-183 | the sweep terminates, keeps the buffer lengths, and ends either normally or on the read past the old axis |
| SinglePass.HistogramPass | Code/Mantid/Kernel/src/VectorHelper.cpp:110-144 | a length mismatch fails first and changes nothing; "No overlap" is raised exactly when no old edge lies above the first new edge; without addition the outputs get one zeroed slot per new bin, with addition they keep their lengths; the general routine's errors never occur |
| SinglePass.SpreadOverNewBins | Code/Mantid/Kernel/src/VectorHelper.cpp:149-159 | the new-edge loop spreads the carried density over the whole new bins below the old edge and ends in the state the machine reaches from the loop's entry |
| SinglePass.AddOldBins | Code/Mantid/Kernel/src/VectorHelper.cpp:167-173 | the old-edge loop adds the whole old bins below the new edge and ends in the state the machine reaches from the loop's entry |
| SinglePass.Sweep | Code/Mantid/Kernel/src/VectorHelper.cpp:145-183 | the outer loop leaves the outcome and both buffers exactly as the machine's run from its entry state |
| SinglePass.RebinHistogram | Code/Mantid/Kernel/src/VectorHelper.cpp:110-193 | the routine's outcome and output buffers are exactly HistogramPass of its inputs and the buffers' previous contents |
| SinglePassProperties.RunOffset | Code/Mantid/Kernel/src/VectorHelper.cpp:145-183 | two runs from states that differ only by constant offsets in the buffers take the same path, end with the same outcome, and keep the offsets |
| SinglePassProperties.AdditionOnlyAdds | Code/Mantid/Kernel/src/VectorHelper.cpp:119-125 | in addition mode the outputs are the cleared-mode outputs plus what the buffers held before, with the same outcome; the errors are compared as accumulated variances, which is what the source leaves in addition mode |
| SinglePassCases.PassFromSeed | Code/Mantid/Kernel/src/VectorHelper.cpp:119-145 | without addition, once an old edge lies above the first new edge, the pass is the run from the seed over zeroed buffers |
| SinglePassCases.StraddlingBinMisread | Code/Mantid/Kernel/src/VectorHelper.cpp:174-182 | the pass gives 1 for the new bin [-1, 0.5] over old unit bins holding 1 and 2 |
| SinglePassCases.StraddlingBinRebinned | Code/Mantid/Kernel/src/VectorHelper.cpp:59-67 | the overlap-weighted answer for the same input is 0.5 |
| SinglePassCases.NegativeVariance | Code/Mantid/Kernel/src/VectorHelper.cpp:157-182 | old bins of width 10 with errors 0, 0, 1 rebinned onto [0, 1], [1, 2] give values 1 and 2 and variances 0 and -0.8 |
| SinglePassCases.ReadsPastOldAxis | Code/Mantid/Kernel/src/VectorHelper.cpp:167-176 | a new axis that reaches past the old one ends in the read after the old axis's last edge |
| SinglePassCases.LastOldBinDropped | Code/Mantid/Kernel/src/VectorHelper.cpp:145-148 | a new axis inside the last old bin receives nothing |
| SinglePassCases.LastOldBinRebinned | Code/Mantid/Kernel/src/VectorHelper.cpp:59-67 | the overlap-weighted answer for the same input is a quarter of the old bin |
| Pearl.GetFilename | scripts/PearlPowderISIS/pearl_routines.py:109-136 | an empty extension fails; otherwise the path is the live-data directory for extensions starting with 's' and the raw-data one otherwise, followed by the run's file name |
| Pearl.OldRunName | scripts/PearlPowderISIS/pearl_routines.py:118-134 | a run before 71009 is named "PRL", five digits that read back as the run number, a dot and the extension |
| Pearl.NewRunName | scripts/PearlPowderISIS/pearl_routines.py:124-134 | a run from 71009 on below 10^8 is named "PEARL", eight digits that read back as the run number, a dot and the extension |
| Pearl.LongRunNumberKept | scripts/PearlPowderISIS/pearl_routines.py:116-134 | a run number at least as wide as its padding gets no zeros and is written in full |
| Pearl.GetMonitorSpectrum | scripts/PearlPowderISIS/pearl_routines.py:90-106 | the script stops exactly for an early run in a mode other than trans, all and novan; it is 1 exactly for runs from 71009 on; before that it is 1081 in trans mode and 2721 in all and novan mode |
| Pearl.MonitorFollowsPrefix | scripts/PearlPowderISIS/pearl_routines.py:90-129 | a run's raw file starts with "PEARL" exactly when its monitor spectrum is 1 |
| Pearl.SetupFocusForInst | scripts/PearlPowderISIS/pearl_routines.py:898-913 | versions "new" and "old" give (12, 3), "new2" gives (14, 5), any other version is refused; the saved range is below the algorithm range |
| Pearl.GenerateOutFileNames | scripts/PearlPowderISIS/pearl_routines.py:874-895 | the output workspace is "PRL" and the run, and the four files are that stem in the processed-data directory with their own endings |
| Pearl.NumberAndTextAgree | scripts/PearlPowderISIS/pearl_routines.py:876-887 | a run number and its decimal text give the same names |
| Pearl.OutFilesDistinct | scripts/PearlPowderISIS/pearl_routines.py:877-880 | the four output files of a run are four different files |
| Pearl.DifferentRunsDifferentFiles | scripts/PearlPowderISIS/pearl_routines.py:877-883 | runs with different stems write different NeXus files |
| Pearl.DifferentRunNumbersDifferentFiles | scripts/PearlPowderISIS/pearl_routines.py:877-883 | two different run numbers, negative ones included, write different NeXus files, because their decimal texts differ |
| Pearl.GetLambdaRange | scripts/PearlPowderISIS/pearl_routines.py:843-847 | only "PEARL" has a range, (0.03, 6.00), with 0 < low < high; any other instrument is refused |
| Elwin.WithElwinNames | qt/scientific_interfaces/Inelastic/Processor/ElwinModel.cpp:123-129 | the four output keys map to the base, "_elwin_" and eq, eq2, elf or elt; every other key is kept as it was |
| Elwin.OutputNames | qt/scientific_interfaces/Inelastic/Processor/ElwinModel.cpp:131-139 | the report succeeds exactly when all four keys are present; a failure names an output key the map lacks |
| Elwin.ReportedAfterSetting | qt/scientific_interfaces/Inelastic/Processor/ElwinModel.cpp:123-139 | after the names are derived from a base, the report is the four derived names in the order q, q squared, ELF, ELT, comma-separated with no trailing comma |
| Elwin.ReportSplitsIntoNames | qt/scientific_interfaces/Inelastic/Processor/ElwinModel.cpp:131-139 | for a base without a comma, the report splits at its commas into exactly the four derived names |
| Elwin.NothingReportedBeforeSetting | qt/scientific_interfaces/Inelastic/Processor/ElwinModel.cpp:135 | with no names yet, the report fails at the first key, qWorkspace |
| Elwin.ElasticWindowProperties | qt/scientific_interfaces/Inelastic/Processor/ElwinModel.cpp:60-85 | the background range is configured exactly with background subtraction, OutputELT exactly with normalisation; the three output names, the log name and value, the integration range and the input group always are, each with its value, and nothing else is |
| Elwin.WorkspaceIndexList | qt/scientific_interfaces/Inelastic/Processor/ElwinModel.cpp:109-112 | the list is every spectrum number followed by a comma, the last one included |
| Elwin.IndexListReadsBack | qt/scientific_interfaces/Inelastic/Processor/ElwinModel.cpp:109-112 | split at its commas, the list gives one piece per spectrum that reads back as its number, then the empty piece after the trailing comma |
| Elwin.ElwinModel.constructor | qt/scientific_interfaces/Inelastic/Processor/ElwinModel.cpp:28-30 | a new model has zero ranges, both switches off and no output names |
| Elwin.ElwinModel.SetIntegrationStart | qt/scientific_interfaces/Inelastic/Processor/ElwinModel.cpp:141 | sets the integration start and changes no other field |
| Elwin.ElwinModel.SetIntegrationEnd | qt/scientific_interfaces/Inelastic/Processor/ElwinModel.cpp:143 | sets the integration end and changes no other field |
| Elwin.ElwinModel.SetBackgroundStart | qt/scientific_interfaces/Inelastic/Processor/ElwinModel.cpp:145 | sets the background start and changes no other field |
| Elwin.ElwinModel.SetBackgroundEnd | qt/scientific_interfaces/Inelastic/Processor/ElwinModel.cpp:147 | sets the background end and changes no other field |
| Elwin.ElwinModel.SetBackgroundSubtraction | qt/scientific_interfaces/Inelastic/Processor/ElwinModel.cpp:149-151 | sets the background-subtraction switch and changes no other field |
| Elwin.ElwinModel.SetNormalise | qt/scientific_interfaces/Inelastic/Processor/ElwinModel.cpp:153 | sets the normalisation switch and changes no other field |
| Elwin.ElwinModel.SetOutputWorkspaceNames | qt/scientific_interfaces/Inelastic/Processor/ElwinModel.cpp:123-129 | the name map becomes WithElwinNames of the old map and the base; the settings are unchanged |
| Elwin.ElwinModel.GetOutputWorkspaceNames | qt/scientific_interfaces/Inelastic/Processor/ElwinModel.cpp:131-139 | the method's result is OutputNames of the current map, so it fails at the first missing key |
| Elwin.ElwinModel.SetupElasticWindowMultiple | qt/scientific_interfaces/Inelastic/Processor/ElwinModel.cpp:55-89 | the names are first derived from the base, the settings are unchanged, and the property set is ElasticWindowProperties of the new names and the current settings |

## Findings

| source | as written | input that shows it | evidently intended | confidence | as-written member | corrected member |
|---|---|---|---|---|---|---|
| Code/Mantid/Kernel/src/VectorHelper.cpp:20-31 | `rebin` sizes its outputs to the number of new edges and sweeps while `inew < size_xnew` and `iold < size_xold`, then reads `xold[iold+1]` and `xnew[inew+1]` | any strictly increasing axes, e.g. xold = xnew = [0, 1]: after the one pair the guard admits inew = 1 and the step reads xnew[2] | one output slot per new bin, and the sweep stops after the last bin of either axis | not executed | RebinBounds.WrittenSweepOverruns | Rebin.Sweep |
| Code/Mantid/Kernel/src/VectorHelper.cpp:84-91 | the distribution postpass runs while `i < size_xnew` and reads `xnew[i+1]` | xnew = [0, 1]: at i = 1 it reads xnew[2] | one division per new bin | not executed | RebinBounds.WrittenPostpassOverruns | Rebin.DivideByWidths |
| Code/Mantid/Kernel/src/VectorHelper.cpp:174-182 | after the whole-bin loop the carried density is refreshed from old bin `iold`, while line 180 spreads it over part of old bin `iold - 1` | xold = [0, 1, 2], yold = [1, 2], xnew = [-1, 0.5], no addition: the new bin gets 1 | the overlap-weighted share of old bin 0, 0.5 | not executed | SinglePassCases.StraddlingBinMisread | SinglePassCases.StraddlingBinRebinned |
| Code/Mantid/Kernel/src/VectorHelper.cpp:157-182 | when the new-edge loop leaves by its break on the last new edge, the carry still runs to the old edge above it, and the refresh then spreads over the negative stretch xnew[inew] - xold[iold - 1] | xold = [0, 10, 20, 30], yold = [10, 10, 10], eold = [0, 0, 1], xnew = [0, 1, 2]: values 1 and 2, variances 0 and -0.8 | values 1 and 1 and non-negative variances | not executed | SinglePassCases.NegativeVariance | Rebin.Rebin |
| Code/Mantid/Kernel/src/VectorHelper.cpp:171-176 | the old-edge loop can stop on the last old edge, and line 176 then reads the edge after it | xold = [0, 1, 2], yold = [1, 1], xnew = [0, 3]: reads xold[3] | the sweep ends after the last old bin with the total, 2 | not executed | SinglePassCases.ReadsPastOldAxis | Rebin.Rebin |
| Code/Mantid/Kernel/src/VectorHelper.cpp:145-148 | the sweep stops before its first iteration when the seed is already the last old edge, so the carried density of the old bin straddling the new axis's start is never used | xold = [0, 1], yold = [5], xnew = [0.5, 0.75]: the new bin gets 0 | a quarter of the old bin, 1.25 | not executed | SinglePassCases.LastOldBinDropped | SinglePassCases.LastOldBinRebinned |

The general routine's model, `Rebin.Rebin`, is the corrected one. It stops at
the last bin of each axis, so it never reads past the end. Its outputs have
one slot per new bin. On strictly increasing axes it is proved to produce the
overlap-weighted sums, which keep counts and variances (`CountsConserved`,
`VariancesConserved`) and leave no variance negative. For the single-pass
routine, those same sums are the intended answer: the corrected cells name the
member that proves it on the finding's input, or the general routine's
contract. The single-pass model itself stays as written. Its one read past the
end is the outcome `OutOfRange`.

## Left out

- Floating point: doubles are modelled as exact reals, so rounding,
  infinities and NaN are not modelled.
- Square roots: errors are kept as variances. Where the source ends with a
  square root, the model's error buffers hold the squares of its errors, as
  described at the top.
- SinglePass.RebinHistogram: without addition the source takes the square root
  of each error at the end (VectorHelper.cpp:185-191) and the model does not,
  so its error buffer holds the squares of the source's errors. With addition
  the source skips the square root, and the model's buffers equal the
  source's.
- Rebin.Rebin: stops at the last bin and sizes its outputs to one slot per new
  bin. The source's reads past the ends of the axes are modelled separately,
  under "## Findings", in module `RebinBounds`.
- Rebin.Rebin: requires the two output vectors to be different objects. Passing
  the same vector twice (aliasing) is not modelled.
- SinglePass.RebinHistogram: requires the two output vectors to be different
  objects, as above.
- SinglePass.RebinHistogram: requires the old axis to be ascending. The routine
  is only meant for sorted axes, and on an unsorted one it divides by a zero or
  negative width.
- SinglePass.RebinHistogram: in addition mode, requires the caller's buffers to
  hold at least one slot per new bin. The source writes into them without a
  size check.
- SinglePass.RebinHistogram: no conservation property is proved. The findings
  show that the single pass does not conserve counts.
- Pearl.GetFilename: the check that the file exists and the `IOError` for a
  missing file are I/O and are not modelled. The data-directory lookup
  `PEARL_datadir()` and the global `livedatadir` are parameters.
- Pearl.GetMonitorSpectrum: the printed messages are not modelled. The
  `sys.exit(0)` for an unsupported mode is the error `UnsupportedMode`.
- Pearl.GetMonitorSpectrum: the global `mode` is a parameter. Run numbers are
  Python integers, modelled as unbounded integers.
- Elwin.ElwinModel.SetupElasticWindowMultiple: returns the property map
  instead of a configured algorithm. Creating and initialising the algorithm
  through `AlgorithmManager` are library calls that are not modelled.
- Elwin.WorkspaceIndexList: spectrum numbers are taken as non-negative
  workspace indices.
- Elwin.WorkspaceIndexList: the extraction algorithm it configures is not
  modelled.
- Elwin.ElasticWindowProperties: property values are strings or reals. The
  typed property system of the algorithms is not modelled.
- The other operations of `ElwinModel.cpp` (grouping, ungrouping, and the
  algorithm set-up at 34-51 and 91-104) only call into algorithm libraries
  that are not part of this model.
