/** The run-number bookkeeping of the PEARL powder diffractometer scripts: raw
    file names and paths, the monitor spectrum, the focusing ranges of each
    instrument version, the names of the processed output files and the
    wavelength range. The scripts' module-level settings (focusing mode, live and
    raw data directories, processed-data directory) are parameters here. */
module Pearl {
  import opened Strings

  datatype PearlError =
    | EmptyExtension            // ext[0] of an empty extension
    | UnsupportedMode           // the script prints an apology and exits
    | UnknownInstrumentVersion  // ValueError
    | UnsupportedInstrument     // NotImplementedError

  datatype Result<T> = Ok(value: T) | Err(error: PearlError)

  /** The first run recorded under the "PEARL" prefix with eight-digit numbers. */
  const FirstPearlRun: int := 71009

  /** Prefix and zero-padded width of a run's raw file name. */
  function Prefix(runNumber: int): string
  {
    if runNumber < FirstPearlRun then "PRL" else "PEARL"
  }

  function NumDigits(runNumber: int): nat
  {
    if runNumber < FirstPearlRun then 5 else 8
  }

  /** The raw file name of a run: the prefix, as many zeros as the rendering of
      the run number falls short of the width, the number, a dot, the extension. */
  function RunFileName(runNumber: int, ext: string): string
  {
    var digits := IntToString(runNumber);
    var pad := if |digits| < NumDigits(runNumber) then NumDigits(runNumber) - |digits| else 0;
    Prefix(runNumber) + Repeat('0', pad) + digits + "." + ext
  }

  /** The directory a file with this extension is read from: the live-data one
      for extensions starting with 's', the raw-data one otherwise. */
  function DataDir(ext: string, rawDataDir: string, liveDataDir: string): string
    requires 0 < |ext|
  {
    if ext[0] != 's' then rawDataDir else liveDataDir
  }

  /** The full path of a run's raw file; an empty extension fails where the
      script reads its first character. */
  method GetFilename(runNumber: int, ext: string, rawDataDir: string, liveDataDir: string)
    returns (r: Result<string>)
    ensures |ext| == 0 <==> r == Err(EmptyExtension)
    ensures 0 < |ext| ==> r == Ok(DataDir(ext, rawDataDir, liveDataDir) + RunFileName(runNumber, ext))
  {
    if |ext| == 0 {
      return Err(EmptyExtension);
    }
    var dataDir := if ext[0] != 's' then rawDataDir else liveDataDir;
    var digit := |IntToString(runNumber)|;
    var numDigits: nat;
    var filename: string;
    if runNumber < FirstPearlRun {
      numDigits := 5;
      filename := "PRL";
    } else {
      numDigits := 8;
      filename := "PEARL";
    }
    var pad := if digit < numDigits then numDigits - digit else 0;
    var i := 0;
    while i < pad
      invariant 0 <= i <= pad
      invariant filename == Prefix(runNumber) + Repeat('0', i)
    {
      filename := filename + "0";
      i := i + 1;
    }
    filename := filename + IntToString(runNumber) + "." + ext;
    return Ok(dataDir + filename);
  }

  /** Runs before the switch-over are named "PRL" and five digits that read back
      as the run number. */
  lemma OldRunName(runNumber: nat, ext: string)
    requires runNumber < FirstPearlRun
    ensures var name := RunFileName(runNumber, ext);
            && |name| == 9 + |ext| && name[..3] == "PRL" && AllDigits(name[3..8])
            && ParseNat(name[3..8]) == runNumber && name[8..] == "." + ext
  {
    DigitsBelowPower(runNumber, 5);
    NamedDigits(runNumber, ext, 3, 5);
  }

  /** Later runs below 10^8 are named "PEARL" and eight digits that read back as
      the run number. */
  lemma NewRunName(runNumber: nat, ext: string)
    requires FirstPearlRun <= runNumber < Pow10(8)
    ensures var name := RunFileName(runNumber, ext);
            && |name| == 14 + |ext| && name[..5] == "PEARL" && AllDigits(name[5..13])
            && ParseNat(name[5..13]) == runNumber && name[13..] == "." + ext
  {
    DigitsBelowPower(runNumber, 8);
    NamedDigits(runNumber, ext, 5, 8);
  }

  /** A run number wider than its padding is written out in full, never cut. */
  lemma LongRunNumberKept(runNumber: int, ext: string)
    requires |IntToString(runNumber)| >= NumDigits(runNumber)
    ensures RunFileName(runNumber, ext) == Prefix(runNumber) + IntToString(runNumber) + "." + ext
  {
    assert Repeat('0', 0) == "";
  }

  lemma NamedDigits(runNumber: nat, ext: string, p: nat, w: nat)
    requires |Prefix(runNumber)| == p && NumDigits(runNumber) == w && |NatToString(runNumber)| <= w
    ensures var name := RunFileName(runNumber, ext);
            && |name| == p + w + 1 + |ext| && name[..p] == Prefix(runNumber) && AllDigits(name[p..p + w])
            && ParseNat(name[p..p + w]) == runNumber && name[p + w..] == "." + ext
  {
    var digits := NatToString(runNumber);
    var padded := Repeat('0', w - |digits|) + digits;
    NameParts(runNumber, ext, padded);
    ThreeParts(Prefix(runNumber), padded, "." + ext);
    LeadingZeros(w - |digits|, digits);
    ParseNatToString(runNumber);
  }

  lemma NameParts(runNumber: nat, ext: string, padded: string)
    requires |NatToString(runNumber)| <= NumDigits(runNumber)
    requires padded == Repeat('0', NumDigits(runNumber) - |NatToString(runNumber)|) + NatToString(runNumber)
    ensures |padded| == NumDigits(runNumber)
    ensures RunFileName(runNumber, ext) == Prefix(runNumber) + padded + ("." + ext)
  {}

  lemma ThreeParts(a: string, b: string, c: string)
    ensures (a + b + c)[..|a|] == a && (a + b + c)[|a|..|a| + |b|] == b && (a + b + c)[|a| + |b|..] == c
    ensures a + b + c == a + (b + c)
  {}

  /** The monitor spectrum of a run: 1 from the switch-over on; before it, 1081 in
      "trans" mode and 2721 in "all" and "novan" mode, and any other mode stops
      the script. */
  function GetMonitorSpectrum(runNumber: int, mode: string): (r: Result<nat>)
    ensures r.Err? <==> runNumber < FirstPearlRun && mode != "trans" && mode != "all" && mode != "novan"
    ensures r.Err? ==> r.error == UnsupportedMode
    ensures r.Ok? ==> r.value in {1, 1081, 2721}
    ensures r == Ok(1) <==> FirstPearlRun <= runNumber
    ensures runNumber < FirstPearlRun && mode == "trans" ==> r == Ok(1081)
    ensures runNumber < FirstPearlRun && (mode == "all" || mode == "novan") ==> r == Ok(2721)
  {
    if runNumber < FirstPearlRun then
      if mode == "trans" then Ok(1081)
      else if mode == "all" then Ok(2721)
      else if mode == "novan" then Ok(2721)
      else Err(UnsupportedMode)
    else Ok(1)
  }

  /** The monitor spectrum follows the file-name convention: a run whose raw file
      carries the "PEARL" prefix uses spectrum 1 in every mode, a "PRL" run never
      does. */
  lemma MonitorFollowsPrefix(runNumber: int, mode: string, ext: string)
    ensures var name := RunFileName(runNumber, ext);
            (|name| >= 5 && name[..5] == "PEARL") <==> GetMonitorSpectrum(runNumber, mode) == Ok(1)
  {
    var name := RunFileName(runNumber, ext);
    assert name[..|Prefix(runNumber)|] == Prefix(runNumber);
    assert name[1] == Prefix(runNumber)[1];
  }

  /** Ranges used when focusing: the number of spectra the focusing algorithm
      handles and the number saved. */
  datatype FocusRanges = FocusRanges(algRange: nat, saveRange: nat)

  /** The focusing ranges of an instrument version: "new" and "old" share theirs,
      "new2" has its own, and any other version is refused. The ranges start unset
      and are checked once the version tests are done. */
  method SetupFocusForInst(instVers: string) returns (r: Result<FocusRanges>)
    ensures r.Err? <==> instVers !in {"new", "old", "new2"}
    ensures r.Err? ==> r.error == UnknownInstrumentVersion
    ensures instVers == "new" || instVers == "old" ==> r == Ok(FocusRanges(12, 3))
    ensures instVers == "new2" ==> r == Ok(FocusRanges(14, 5))
    ensures r.Ok? ==> r.value.saveRange < r.value.algRange
  {
    var algRange: nat, saveRange: nat := 0, 0;
    var algSet, saveSet := false, false;
    if instVers == "new" || instVers == "old" {
      algRange, algSet := 12, true;
      saveRange, saveSet := 3, true;
    } else if instVers == "new2" {
      algRange, algSet := 14, true;
      saveRange, saveSet := 5, true;
    }
    if !algSet || !saveSet {
      return Err(UnknownInstrumentVersion);
    }
    return Ok(FocusRanges(algRange, saveRange));
  }

  /** A run given as a number or as text (for instance a range of runs). */
  datatype RunLabel = Number(n: int) | Text(s: string)

  /** The names of a focused run's output files and of its output workspace. */
  datatype OutFileNames = OutFileNames(nxsFilename: string, gssFilename: string, tofXyeFilename: string,
                                       dspacingXyeFilename: string, outputName: string)

  function Stem(number: RunLabel): string
  {
    match number
    case Number(n) => "PRL" + IntToString(n)
    case Text(s) => "PRL" + s
  }

  /** The output names of a run: the workspace is named by the stem, and the
      four files are the stem in the processed-data directory with their own
      endings. */
  function GenerateOutFileNames(number: RunLabel, userDataProcessed: string): (r: OutFileNames)
    ensures r.outputName == Stem(number)
    ensures r.nxsFilename == userDataProcessed + r.outputName + ".nxs"
    ensures r.gssFilename == userDataProcessed + r.outputName + ".gss"
    ensures r.tofXyeFilename == userDataProcessed + r.outputName + "_tof_xye.dat"
    ensures r.dspacingXyeFilename == userDataProcessed + r.outputName + "_d_xye.dat"
  {
    var stem := Stem(number);
    OutFileNames(userDataProcessed + stem + ".nxs", userDataProcessed + stem + ".gss",
                 userDataProcessed + stem + "_tof_xye.dat", userDataProcessed + stem + "_d_xye.dat", stem)
  }

  /** A run number and its decimal text name the same files. */
  lemma NumberAndTextAgree(n: int, userDataProcessed: string)
    ensures GenerateOutFileNames(Number(n), userDataProcessed) == GenerateOutFileNames(Text(IntToString(n)), userDataProcessed)
  {}

  /** The four output files of a run are four different files. */
  lemma {:induction false} OutFilesDistinct(number: RunLabel, userDataProcessed: string)
    ensures var r := GenerateOutFileNames(number, userDataProcessed);
            r.nxsFilename != r.gssFilename && r.nxsFilename != r.tofXyeFilename
            && r.nxsFilename != r.dspacingXyeFilename && r.gssFilename != r.tofXyeFilename
            && r.gssFilename != r.dspacingXyeFilename && r.tofXyeFilename != r.dspacingXyeFilename
  {
    var base := userDataProcessed + Stem(number);
    var nxs, gss, tof, dsp := base + ".nxs", base + ".gss", base + "_tof_xye.dat", base + "_d_xye.dat";
    var k := |base|;
    assert nxs[k + 1] == 'n' && gss[k + 1] == 'g' && tof[k + 1] == 't' && dsp[k + 1] == 'd';
  }

  /** Runs with different stems write to different files. */
  lemma {:induction false} DifferentRunsDifferentFiles(number: RunLabel, other: RunLabel, userDataProcessed: string)
    requires Stem(number) != Stem(other)
    ensures GenerateOutFileNames(number, userDataProcessed).nxsFilename
            != GenerateOutFileNames(other, userDataProcessed).nxsFilename
  {
    var d, s1, s2 := userDataProcessed, Stem(number), Stem(other);
    if d + s1 + ".nxs" == d + s2 + ".nxs" {
      ThreeParts(d, s1, ".nxs");
      ThreeParts(d, s2, ".nxs");
      assert false;
    }
  }

  /** Different run numbers have different stems, so they write different files. */
  lemma {:induction false} DifferentRunNumbersDifferentFiles(m: int, n: int, userDataProcessed: string)
    requires m != n
    ensures GenerateOutFileNames(Number(m), userDataProcessed).nxsFilename
            != GenerateOutFileNames(Number(n), userDataProcessed).nxsFilename
  {
    var sm, sn := IntToString(m), IntToString(n);
    if sm == sn {
      if m >= 0 && n >= 0 {
        NatToStringInjective(m, n);
      } else if m < 0 && n < 0 {
        assert sm[1..] == sn[1..];
        NatToStringInjective(-m, -n);
      }
      assert false;
    }
    ThreeParts("PRL", sm, "");
    ThreeParts("PRL", sn, "");
    assert ("PRL" + sm)[3..] == sm && ("PRL" + sn)[3..] == sn;
    DifferentRunsDifferentFiles(Number(m), Number(n), userDataProcessed);
  }

  /** The wavelength range, which only PEARL has. */
  function GetLambdaRange(instrumentName: string): (r: Result<(real, real)>)
    ensures r.Err? <==> instrumentName != "PEARL"
    ensures r.Err? ==> r.error == UnsupportedInstrument
    ensures r.Ok? ==> 0.0 < r.value.0 < r.value.1 && r.value == (0.03, 6.00)
  {
    if instrumentName != "PEARL" then Err(UnsupportedInstrument) else Ok((0.03, 6.00))
  }
}
