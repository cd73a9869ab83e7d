/** The model behind the elastic-window (Elwin) tab of the inelastic interface:
    the integration and background settings it keeps, the names of the output
    workspaces it derives from a base name, and the properties and spectrum lists
    it hands to the algorithms it configures. The algorithms themselves are not
    part of this model; their property sets are maps from property name to value. */
module Elwin {
  import opened Strings

  datatype ElwinError = MissingKey(key: string)

  datatype Result<T> = Ok(value: T) | Err(error: ElwinError)

  /** A property value handed to an algorithm. */
  datatype Property = Text(text: string) | Number(number: real)

  const ElwinSuffix: string := "_elwin_"

  /** The name-map keys of the four outputs, in the order they are reported. */
  const OutputKeys: seq<string> := ["qWorkspace", "qSquaredWorkspace", "elfWorkspace", "eltWorkspace"]

  /** The workspace-name endings of the four outputs, in the same order. */
  const OutputEndings: seq<string> := ["eq", "eq2", "elf", "elt"]

  /** `m` with the four output names derived from `base`. */
  function WithElwinNames(m: map<string, string>, base: string): (r: map<string, string>)
    ensures forall i :: 0 <= i < 4 ==> OutputKeys[i] in r && r[OutputKeys[i]] == base + ElwinSuffix + OutputEndings[i]
    ensures forall k :: k !in OutputKeys ==> (k in r <==> k in m) && (k in m ==> r[k] == m[k])
  {
    m["qWorkspace" := base + ElwinSuffix + "eq"]["qSquaredWorkspace" := base + ElwinSuffix + "eq2"]
     ["elfWorkspace" := base + ElwinSuffix + "elf"]["eltWorkspace" := base + ElwinSuffix + "elt"]
  }

  predicate HasKeys(m: map<string, string>, n: nat)
    requires n <= 4
  {
    forall i :: 0 <= i < n ==> OutputKeys[i] in m
  }

  /** The names the map holds for the first `n` output keys, in order. */
  function NamesOf(m: map<string, string>, n: nat): (r: seq<string>)
    requires n <= 4 && HasKeys(m, n)
    ensures |r| == n && forall i :: 0 <= i < n ==> r[i] == m[OutputKeys[i]]
  {
    if n == 0 then [] else NamesOf(m, n - 1) + [m[OutputKeys[n - 1]]]
  }

  /** The index of the first output key missing from the map at or after `n`
      (all before it being present), or 4 when none is missing. */
  function FirstMissing(m: map<string, string>, n: nat): (k: nat)
    requires n <= 4 && HasKeys(m, n)
    ensures n <= k <= 4 && HasKeys(m, k) && (k < 4 ==> OutputKeys[k] !in m)
    decreases 4 - n
  {
    if n == 4 || OutputKeys[n] !in m then n else FirstMissing(m, n + 1)
  }

  /** What reporting the output names yields: the four names in order, separated
      by commas, or a failure at the first key the map lacks. */
  function OutputNames(m: map<string, string>): (r: Result<string>)
    ensures r.Ok? <==> HasKeys(m, 4)
    ensures r.Err? ==> r.error.key in OutputKeys && r.error.key !in m
  {
    var k := FirstMissing(m, 0);
    if k < 4 then Err(MissingKey(OutputKeys[k])) else Ok(Joined(NamesOf(m, 4)))
  }

  /** The four names derived from a base, in report order. */
  function DerivedNames(base: string): (r: seq<string>)
    ensures |r| == 4 && forall i :: 0 <= i < 4 ==> r[i] == base + ElwinSuffix + OutputEndings[i]
  {
    [base + ElwinSuffix + "eq", base + ElwinSuffix + "eq2", base + ElwinSuffix + "elf", base + ElwinSuffix + "elt"]
  }

  lemma NamesAfterSetting(m: map<string, string>, base: string)
    ensures HasKeys(WithElwinNames(m, base), 4) && NamesOf(WithElwinNames(m, base), 4) == DerivedNames(base)
  {}

  /** Once the names are derived from a base, they are reported as the four
      derived names in the order q, q squared, ELF, ELT ... */
  lemma ReportedAfterSetting(m: map<string, string>, base: string)
    ensures OutputNames(WithElwinNames(m, base))
            == Ok((base + "_elwin_eq,") + (base + "_elwin_eq2,") + (base + "_elwin_elf,") + (base + "_elwin_elt"))
  {
    NamesAfterSetting(m, base);
    var names := DerivedNames(base);
    assert names[1..][1..][1..] == [names[3]];
    var x0, x1, x2, x3 := names[0] + ",", names[1] + ",", names[2] + ",", names[3];
    assert Joined(names[1..][1..]) == names[2] + "," + names[3];
    assert Joined(names) == x0 + (x1 + (x2 + x3));
    assert x0 == base + "_elwin_eq," && x1 == base + "_elwin_eq2," && x2 == base + "_elwin_elf,";
    assert x3 == base + "_elwin_elt";
    Associative(x1, x2, x3);
    Associative(x0, x1 + x2, x3);
    Associative(x0, x1, x2);
  }

  /** ... and when the base has no comma the report splits back into them. */
  lemma ReportSplitsIntoNames(m: map<string, string>, base: string)
    requires NoComma(base)
    ensures var r := OutputNames(WithElwinNames(m, base));
            r.Ok? && Split(r.value) == DerivedNames(base)
  {
    NamesAfterSetting(m, base);
    var names := DerivedNames(base);
    forall i | 0 <= i < 4
      ensures NoComma(names[i])
    {
      assert names[i] == base + (ElwinSuffix + OutputEndings[i]);
    }
    CommaFreeEach(names);
    SplitJoined(names);
  }

  /** Reporting fails until the names have been derived, since a fresh model
      holds no names. */
  lemma NothingReportedBeforeSetting()
    ensures OutputNames(map[]) == Err(MissingKey("qWorkspace"))
  {}

  /** Every property the elastic-window algorithm may be given. */
  const ElasticWindowPropertyNames: set<string> :=
    {"OutputInQ", "OutputInQSquared", "OutputELF", "OutputELT", "SampleEnvironmentLogName",
     "SampleEnvironmentLogValue", "IntegrationRangeStart", "IntegrationRangeEnd",
     "BackgroundRangeStart", "BackgroundRangeEnd", "InputWorkspaces"}

  /** The property set of the elastic-window algorithm: the three output names
      that are always wanted, the log name and value, the integration range and
      the input group; the background range only with background subtraction,
      the ELT output only with normalisation. */
  function ElasticWindowProperties(names: map<string, string>, inputGroupWsName: string,
                                   logName: string, logValue: string,
                                   integrationStart: real, integrationEnd: real,
                                   backgroundStart: real, backgroundEnd: real,
                                   backgroundSubtraction: bool, normalise: bool): (props: map<string, Property>)
    requires "qWorkspace" in names && "qSquaredWorkspace" in names
    requires "elfWorkspace" in names && "eltWorkspace" in names
    ensures ("BackgroundRangeStart" in props <==> backgroundSubtraction)
            && ("BackgroundRangeEnd" in props <==> backgroundSubtraction)
    ensures "OutputELT" in props <==> normalise
    ensures normalise ==> props["OutputELT"] == Text(names["eltWorkspace"])
    ensures backgroundSubtraction ==> props["BackgroundRangeStart"] == Number(backgroundStart)
                                      && props["BackgroundRangeEnd"] == Number(backgroundEnd)
    ensures "OutputInQ" in props && props["OutputInQ"] == Text(names["qWorkspace"])
    ensures "OutputInQSquared" in props && props["OutputInQSquared"] == Text(names["qSquaredWorkspace"])
    ensures "OutputELF" in props && props["OutputELF"] == Text(names["elfWorkspace"])
    ensures "IntegrationRangeStart" in props && props["IntegrationRangeStart"] == Number(integrationStart)
    ensures "IntegrationRangeEnd" in props && props["IntegrationRangeEnd"] == Number(integrationEnd)
    ensures "InputWorkspaces" in props && props["InputWorkspaces"] == Text(inputGroupWsName)
    ensures "SampleEnvironmentLogName" in props && props["SampleEnvironmentLogName"] == Text(logName)
    ensures "SampleEnvironmentLogValue" in props && props["SampleEnvironmentLogValue"] == Text(logValue)
    ensures forall k :: k in props ==> k in ElasticWindowPropertyNames
  {
    var always := map["OutputInQ" := Text(names["qWorkspace"]),
                      "OutputInQSquared" := Text(names["qSquaredWorkspace"]),
                      "OutputELF" := Text(names["elfWorkspace"]),
                      "SampleEnvironmentLogName" := Text(logName),
                      "SampleEnvironmentLogValue" := Text(logValue),
                      "IntegrationRangeStart" := Number(integrationStart),
                      "IntegrationRangeEnd" := Number(integrationEnd)];
    var withBackground := if backgroundSubtraction
      then always["BackgroundRangeStart" := Number(backgroundStart)]["BackgroundRangeEnd" := Number(backgroundEnd)]
      else always;
    var withElt := if normalise then withBackground["OutputELT" := Text(names["eltWorkspace"])] else withBackground;
    withElt["InputWorkspaces" := Text(inputGroupWsName)]
  }

  /** The renderings of spectrum numbers, in order. */
  function Renderings(spectra: seq<nat>): (r: seq<string>)
    ensures |r| == |spectra| && forall i :: 0 <= i < |spectra| ==> r[i] == NatToString(spectra[i])
  {
    if |spectra| == 0 then [] else Renderings(spectra[..|spectra| - 1]) + [NatToString(spectra[|spectra| - 1])]
  }

  /** The workspace-index list handed to spectrum extraction: each spectrum number
      followed by a comma, the last one included. */
  method WorkspaceIndexList(spectra: seq<nat>) returns (list: string)
    ensures list == Terminated(Renderings(spectra))
  {
    list := "";
    var i := 0;
    while i < |spectra|
      invariant 0 <= i <= |spectra|
      invariant list == Terminated(Renderings(spectra[..i]))
    {
      TerminatedAppend(Renderings(spectra[..i]), NatToString(spectra[i]));
      assert Renderings(spectra[..i + 1]) == Renderings(spectra[..i]) + [NatToString(spectra[i])] by {
        assert spectra[..i + 1][..i] == spectra[..i];
      }
      list := list + NatToString(spectra[i]) + ",";
      i := i + 1;
    }
    assert spectra[..i] == spectra;
  }

  /** The index list names exactly the given spectra: split at its commas it
      gives one piece per spectrum, reading back as that spectrum's number, and
      the empty piece after the trailing comma. */
  lemma IndexListReadsBack(spectra: seq<nat>)
    ensures var pieces := Split(Terminated(Renderings(spectra)));
            && |pieces| == |spectra| + 1 && pieces[|spectra|] == ""
            && forall i :: 0 <= i < |spectra| ==> AllDigits(pieces[i]) && ParseNat(pieces[i]) == spectra[i]
  {
    var r := Renderings(spectra);
    forall i | 0 <= i < |r|
      ensures NoComma(r[i])
    {
      assert AllDigits(r[i]);
    }
    CommaFreeEach(r);
    SplitTerminated(r);
    forall i | 0 <= i < |spectra|
      ensures ParseNat(r[i]) == spectra[i]
    {
      ParseNatToString(spectra[i]);
    }
  }

  /** The tab's model: the integration and background settings and the map from
      output key to workspace name. */
  class ElwinModel {
    var integrationStart: real
    var integrationEnd: real
    var backgroundStart: real
    var backgroundEnd: real
    var backgroundSubtraction: bool
    var normalise: bool
    var outputWorkspaceNames: map<string, string>

    /** Everything zero or off, and no output names. */
    constructor()
      ensures integrationStart == 0.0 && integrationEnd == 0.0
      ensures backgroundStart == 0.0 && backgroundEnd == 0.0
      ensures !backgroundSubtraction && !normalise
      ensures outputWorkspaceNames == map[]
    {
      integrationStart, integrationEnd := 0.0, 0.0;
      backgroundStart, backgroundEnd := 0.0, 0.0;
      backgroundSubtraction, normalise := false, false;
      outputWorkspaceNames := map[];
    }

    method SetIntegrationStart(value: real)
      modifies this
      ensures integrationStart == value
      ensures integrationEnd == old(integrationEnd) && backgroundStart == old(backgroundStart)
      ensures backgroundEnd == old(backgroundEnd) && backgroundSubtraction == old(backgroundSubtraction)
      ensures normalise == old(normalise) && outputWorkspaceNames == old(outputWorkspaceNames)
    {
      integrationStart := value;
    }

    method SetIntegrationEnd(value: real)
      modifies this
      ensures integrationEnd == value
      ensures integrationStart == old(integrationStart) && backgroundStart == old(backgroundStart)
      ensures backgroundEnd == old(backgroundEnd) && backgroundSubtraction == old(backgroundSubtraction)
      ensures normalise == old(normalise) && outputWorkspaceNames == old(outputWorkspaceNames)
    {
      integrationEnd := value;
    }

    method SetBackgroundStart(value: real)
      modifies this
      ensures backgroundStart == value
      ensures integrationStart == old(integrationStart) && integrationEnd == old(integrationEnd)
      ensures backgroundEnd == old(backgroundEnd) && backgroundSubtraction == old(backgroundSubtraction)
      ensures normalise == old(normalise) && outputWorkspaceNames == old(outputWorkspaceNames)
    {
      backgroundStart := value;
    }

    method SetBackgroundEnd(value: real)
      modifies this
      ensures backgroundEnd == value
      ensures integrationStart == old(integrationStart) && integrationEnd == old(integrationEnd)
      ensures backgroundStart == old(backgroundStart) && backgroundSubtraction == old(backgroundSubtraction)
      ensures normalise == old(normalise) && outputWorkspaceNames == old(outputWorkspaceNames)
    {
      backgroundEnd := value;
    }

    method SetBackgroundSubtraction(value: bool)
      modifies this
      ensures backgroundSubtraction == value
      ensures integrationStart == old(integrationStart) && integrationEnd == old(integrationEnd)
      ensures backgroundStart == old(backgroundStart) && backgroundEnd == old(backgroundEnd)
      ensures normalise == old(normalise) && outputWorkspaceNames == old(outputWorkspaceNames)
    {
      backgroundSubtraction := value;
    }

    method SetNormalise(value: bool)
      modifies this
      ensures normalise == value
      ensures integrationStart == old(integrationStart) && integrationEnd == old(integrationEnd)
      ensures backgroundStart == old(backgroundStart) && backgroundEnd == old(backgroundEnd)
      ensures backgroundSubtraction == old(backgroundSubtraction) && outputWorkspaceNames == old(outputWorkspaceNames)
    {
      normalise := value;
    }

    /** Derives the four output names from a base name; other entries of the map
        and the settings stay as they were. */
    method SetOutputWorkspaceNames(workspaceBaseName: string)
      modifies this
      ensures outputWorkspaceNames == WithElwinNames(old(outputWorkspaceNames), workspaceBaseName)
      ensures integrationStart == old(integrationStart) && integrationEnd == old(integrationEnd)
      ensures backgroundStart == old(backgroundStart) && backgroundEnd == old(backgroundEnd)
      ensures backgroundSubtraction == old(backgroundSubtraction) && normalise == old(normalise)
    {
      var elwinSuffix := "_elwin_";
      outputWorkspaceNames := outputWorkspaceNames["qWorkspace" := workspaceBaseName + elwinSuffix + "eq"];
      outputWorkspaceNames := outputWorkspaceNames["qSquaredWorkspace" := workspaceBaseName + elwinSuffix + "eq2"];
      outputWorkspaceNames := outputWorkspaceNames["elfWorkspace" := workspaceBaseName + elwinSuffix + "elf"];
      outputWorkspaceNames := outputWorkspaceNames["eltWorkspace" := workspaceBaseName + elwinSuffix + "elt"];
    }

    /** Reports the four output names, comma-separated, failing at the first
        key the map lacks. */
    method GetOutputWorkspaceNames() returns (r: Result<string>)
      ensures r == OutputNames(outputWorkspaceNames)
    {
      var names := outputWorkspaceNames;
      var out := "";
      var i := 0;
      while i < 4
        invariant 0 <= i <= 4 && HasKeys(names, i)
        invariant out == Terminated(NamesOf(names, i))
        invariant FirstMissing(names, 0) == FirstMissing(names, i)
      {
        var key := OutputKeys[i];
        if key !in names {
          return Err(MissingKey(key));
        }
        TerminatedAppend(NamesOf(names, i), names[key]);
        out := out + names[key] + ",";
        i := i + 1;
      }
      TerminatedDropLast(NamesOf(names, 4));
      return Ok(out[..|out| - 1]);
    }

    /** Derives the output names from the base name, then the property set of the
        elastic-window algorithm from them and the settings. */
    method SetupElasticWindowMultiple(workspaceBaseName: string, inputGroupWsName: string,
                                      sampleEnvironmentLogName: string, sampleEnvironmentLogValue: string)
      returns (props: map<string, Property>)
      modifies this
      ensures outputWorkspaceNames == WithElwinNames(old(outputWorkspaceNames), workspaceBaseName)
      ensures integrationStart == old(integrationStart) && integrationEnd == old(integrationEnd)
      ensures backgroundStart == old(backgroundStart) && backgroundEnd == old(backgroundEnd)
      ensures backgroundSubtraction == old(backgroundSubtraction) && normalise == old(normalise)
      ensures "qWorkspace" in outputWorkspaceNames && "qSquaredWorkspace" in outputWorkspaceNames
      ensures "elfWorkspace" in outputWorkspaceNames && "eltWorkspace" in outputWorkspaceNames
      ensures props == ElasticWindowProperties(outputWorkspaceNames, inputGroupWsName,
                                               sampleEnvironmentLogName, sampleEnvironmentLogValue,
                                               integrationStart, integrationEnd, backgroundStart, backgroundEnd,
                                               backgroundSubtraction, normalise)
    {
      SetOutputWorkspaceNames(workspaceBaseName);
      props := map[];
      props := props["OutputInQ" := Text(outputWorkspaceNames["qWorkspace"])];
      props := props["OutputInQSquared" := Text(outputWorkspaceNames["qSquaredWorkspace"])];
      props := props["OutputELF" := Text(outputWorkspaceNames["elfWorkspace"])];
      props := props["SampleEnvironmentLogName" := Text(sampleEnvironmentLogName)];
      props := props["SampleEnvironmentLogValue" := Text(sampleEnvironmentLogValue)];
      props := props["IntegrationRangeStart" := Number(integrationStart)];
      props := props["IntegrationRangeEnd" := Number(integrationEnd)];
      if backgroundSubtraction {
        props := props["BackgroundRangeStart" := Number(backgroundStart)];
        props := props["BackgroundRangeEnd" := Number(backgroundEnd)];
      }
      if normalise {
        props := props["OutputELT" := Text(outputWorkspaceNames["eltWorkspace"])];
      }
      props := props["InputWorkspaces" := Text(inputGroupWsName)];
    }
  }
}
