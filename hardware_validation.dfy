/** Hardware plausibility checks (services/hardware_validation.py): minimum
    CPU and RAM, a realistic screen resolution, and low-severity checks of
    platform, timezone offset and language. The minimums are class-level and
    can be changed at run time. */
module HardwareValidation {
  import opened Wrappers
  import opened Strings
  import opened Values
  import opened Common

  /** The conditions that make the hardware invalid; the messages that
      describe them are not modelled. */
  datatype Issue = MissingCpu | InsufficientCpu | MissingRam | InsufficientRam | SuspiciousResolution

  /** The result of `validate_hardware_specs`: no data at all, or the issues
      and the risk factors in the order they were added. */
  datatype HardwareResult =
    | NoHardwareData
    | Checked(issues: seq<Issue>, factors: seq<Factor>)

  /** `is_valid_hardware` */
  predicate IsValidHardware(r: HardwareResult) {
    r.Checked? && r.issues == []
  }

  /** The reported factors; missing data is one medium factor. */
  function FactorsOf(r: HardwareResult): seq<Factor> {
    match r
    case NoHardwareData => [Factor("missing_hardware_info", Medium)]
    case Checked(_, fs) => fs
  }

  /** `risk_level`: REVIEW with a high factor or when invalid. */
  function HardwareRiskLevel(r: HardwareResult): RiskLevel {
    if CountSeverity(FactorsOf(r), High) > 0 || !IsValidHardware(r) then Review else Allow
  }

  const ValidPlatforms: seq<string> := ["Win32", "MacIntel", "Linux x86_64", "Linux i686"]

  /** `_validate_screen_resolution` for a string: two integers around one
      'x' (either case), landscape, between 800x600 and 7680x4320. */
  predicate ScreenResolutionValid(resolution: string) {
    var parts := Split(Lower(resolution), 'x');
    |parts| == 2 &&
    var width := ParseInt(Trim(parts[0]));
    var height := ParseInt(Trim(parts[1]));
    width.Some? && height.Some? &&
    800 <= width.value <= 7680 && 600 <= height.value <= 4320 && width.value > height.value
  }

  /** A value that is not a string has no `lower` and is refused. */
  predicate ResolutionValueValid(v: Value) {
    v.Str? && ScreenResolutionValid(v.s)
  }

  /** The finding of one core check, if it fires: an issue and its factor. */
  datatype Finding = Finding(issue: Issue, factor: Factor)

  function IssueOf(f: Option<Finding>): seq<Issue> {
    if f.Some? then [f.value.issue] else []
  }

  function FactorOf(f: Option<Finding>): seq<Factor> {
    if f.Some? then [f.value.factor] else []
  }

  /** A missing core count is medium; a non-integer (a bool counts as an
      integer) or a count below the minimum is high. */
  function CpuFinding(hw: Dict, minCpuCores: int): Option<Finding> {
    var v := Get(hw, "cpu_cores");
    if v.Null? then Some(Finding(MissingCpu, Factor("missing_cpu_info", Medium)))
    else if !IsInt(v) || ToInt(v).value < minCpuCores then Some(Finding(InsufficientCpu, Factor("insufficient_cpu", High)))
    else None
  }

  /** The same for the RAM, which may also be a float. */
  function RamFinding(hw: Dict, minRamGb: real): Option<Finding> {
    var v := Get(hw, "ram_gb");
    if v.Null? then Some(Finding(MissingRam, Factor("missing_ram_info", Medium)))
    else if NumberValue(v).None? || NumberValue(v).value < minRamGb then Some(Finding(InsufficientRam, Factor("insufficient_ram", High)))
    else None
  }

  /** A given but implausible resolution is an issue with a low factor. */
  function ResolutionFinding(hw: Dict): Option<Finding> {
    var v := Get(hw, "screen_resolution");
    if Truthy(v) && !ResolutionValueValid(v) then Some(Finding(SuspiciousResolution, Factor("suspicious_resolution", Low)))
    else None
  }

  /** An unlisted platform. */
  function PlatformFactors(hw: Dict): (r: seq<Factor>)
    ensures forall i :: 0 <= i < |r| ==> r[i].severity == Low
  {
    var platform := Get(hw, "platform");
    if Truthy(platform) && !(platform.Str? && platform.s in ValidPlatforms) then [Factor("unusual_platform", Low)] else []
  }

  /** A timezone offset `int()` refuses, or one outside [-720, 840]
      minutes. */
  function TimezoneFactors(hw: Dict): (r: seq<Factor>)
    ensures forall i :: 0 <= i < |r| ==> r[i].severity == Low
  {
    var timezone := Get(hw, "timezone");
    if !Truthy(timezone) then []
    else if ToInt(timezone).None? then [Factor("malformed_timezone", Low)]
    else if !(-720 <= ToInt(timezone).value <= 840) then [Factor("invalid_timezone", Low)]
    else []
  }

  /** A language longer than 10; a truthy language without a length makes
      `len` raise. */
  function LanguageFactors(hw: Dict): (r: Result<seq<Factor>, string>)
    ensures r.Err? <==> Truthy(Get(hw, "language")) && Len(Get(hw, "language")).None?
    ensures r.Ok? ==> forall i :: 0 <= i < |r.value| ==> r.value[i].severity == Low
  {
    var language := Get(hw, "language");
    if Truthy(language) && Len(language).None? then Err(LenError(language))
    else if Truthy(language) && Len(language).value > 10 then Ok([Factor("suspicious_language", Low)])
    else Ok([])
  }

  /** The low factors `_validate_additional_specs` adds, in order. */
  function AdditionalFactors(hw: Dict): (r: Result<seq<Factor>, string>)
    ensures r.Err? <==> Truthy(Get(hw, "language")) && Len(Get(hw, "language")).None?
    ensures r.Ok? ==> forall i :: 0 <= i < |r.value| ==> r.value[i].severity == Low
  {
    match LanguageFactors(hw)
    case Err(e) => Err(e)
    case Ok(l) => Ok(PlatformFactors(hw) + TimezoneFactors(hw) + l)
  }

  function CoreIssues(hw: Dict, minCpuCores: int, minRamGb: real): seq<Issue> {
    IssueOf(CpuFinding(hw, minCpuCores)) + IssueOf(RamFinding(hw, minRamGb)) + IssueOf(ResolutionFinding(hw))
  }

  function CoreFactors(hw: Dict, minCpuCores: int, minRamGb: real): seq<Factor> {
    FactorOf(CpuFinding(hw, minCpuCores)) + FactorOf(RamFinding(hw, minRamGb)) + FactorOf(ResolutionFinding(hw))
  }

  /** What `validate_hardware_specs` returns for given minimums. */
  function HardwareVerdict(hardware: Option<Dict>, minCpuCores: int, minRamGb: real): Result<HardwareResult, string> {
    if hardware.None? || hardware.value == map[] then Ok(NoHardwareData)
    else
      var hw := hardware.value;
      match AdditionalFactors(hw)
      case Err(e) => Err(e)
      case Ok(extra) => Ok(Checked(CoreIssues(hw, minCpuCores, minRamGb), CoreFactors(hw, minCpuCores, minRamGb) + extra))
  }

  /** The service with its class-level minimums; one instance stands for the
      class. */
  class HardwareValidator {
    var minCpuCores: int
    var minRamGb: real

    ghost predicate Valid()
      reads this
    {
      minCpuCores > 0 && minRamGb > 0.0
    }

    constructor ()
      ensures Valid()
      ensures minCpuCores == 2 && minRamGb == 4.0
    {
      minCpuCores := 2;
      minRamGb := 4.0;
    }

    /** `validate_hardware_specs`, collecting issues and factors as the
        checks run. */
    method ValidateHardwareSpecs(hardware: Option<Dict>) returns (r: Result<HardwareResult, string>)
      ensures r == HardwareVerdict(hardware, minCpuCores, minRamGb)
    {
      if hardware.None? || hardware.value == map[] {
        return Ok(NoHardwareData);
      }
      var hw := hardware.value;
      var issues, factors := CheckCore(hw);
      var extended := ValidateAdditionalSpecs(hw, factors);
      if extended.Err? {
        return Err(extended.error);
      }
      return Ok(Checked(issues, extended.value));
    }

    /** The core-count, RAM and resolution checks, in order. */
    method CheckCore(hw: Dict) returns (issues: seq<Issue>, factors: seq<Factor>)
      ensures issues == CoreIssues(hw, minCpuCores, minRamGb)
      ensures factors == CoreFactors(hw, minCpuCores, minRamGb)
    {
      issues, factors := CheckCpu(hw);
      issues, factors := CheckRam(hw, issues, factors);
      issues, factors := CheckResolution(hw, issues, factors);
    }

    /** The core-count check of `validate_hardware_specs`, the first one. */
    method CheckCpu(hw: Dict) returns (issues: seq<Issue>, factors: seq<Factor>)
      ensures issues == IssueOf(CpuFinding(hw, minCpuCores))
      ensures factors == FactorOf(CpuFinding(hw, minCpuCores))
    {
      issues, factors := [], [];
      var cpu := Get(hw, "cpu_cores");
      if cpu.Null? {
        issues := [MissingCpu];
        factors := [Factor("missing_cpu_info", Medium)];
      } else if !IsInt(cpu) || ToInt(cpu).value < minCpuCores {
        issues := [InsufficientCpu];
        factors := [Factor("insufficient_cpu", High)];
      }
    }

    /** The RAM check of `validate_hardware_specs`. */
    method CheckRam(hw: Dict, issues: seq<Issue>, factors: seq<Factor>) returns (issues': seq<Issue>, factors': seq<Factor>)
      ensures issues' == issues + IssueOf(RamFinding(hw, minRamGb))
      ensures factors' == factors + FactorOf(RamFinding(hw, minRamGb))
    {
      issues', factors' := issues, factors;
      var ram := Get(hw, "ram_gb");
      if ram.Null? {
        issues' := issues' + [MissingRam];
        factors' := factors' + [Factor("missing_ram_info", Medium)];
      } else if NumberValue(ram).None? || NumberValue(ram).value < minRamGb {
        issues' := issues' + [InsufficientRam];
        factors' := factors' + [Factor("insufficient_ram", High)];
      }
    }

    /** The screen-resolution check of `validate_hardware_specs`. */
    static method CheckResolution(hw: Dict, issues: seq<Issue>, factors: seq<Factor>) returns (issues': seq<Issue>, factors': seq<Factor>)
      ensures issues' == issues + IssueOf(ResolutionFinding(hw))
      ensures factors' == factors + FactorOf(ResolutionFinding(hw))
    {
      issues', factors' := issues, factors;
      var resolution := Get(hw, "screen_resolution");
      if Truthy(resolution) && !ResolutionValueValid(resolution) {
        issues' := issues' + [SuspiciousResolution];
        factors' := factors' + [Factor("suspicious_resolution", Low)];
      }
    }

    /** `_validate_additional_specs`, appending its factors to the ones
        found so far; it never adds an issue. */
    static method ValidateAdditionalSpecs(hw: Dict, factors: seq<Factor>) returns (r: Result<seq<Factor>, string>)
      ensures AdditionalFactors(hw).Err? ==> r == Err(AdditionalFactors(hw).error)
      ensures AdditionalFactors(hw).Ok? ==> r == Ok(factors + AdditionalFactors(hw).value)
    {
      var fs := CheckPlatform(hw, factors);
      fs := CheckTimezone(hw, fs);
      var language := Get(hw, "language");
      if Truthy(language) && Len(language).None? {
        return Err(LenError(language));
      }
      if Truthy(language) && Len(language).value > 10 {
        fs := fs + [Factor("suspicious_language", Low)];
      }
      assert fs == factors + PlatformFactors(hw) + TimezoneFactors(hw) + LanguageFactors(hw).value;
      assert fs == factors + (PlatformFactors(hw) + TimezoneFactors(hw) + LanguageFactors(hw).value);
      return Ok(fs);
    }

    /** The platform check of `_validate_additional_specs`. */
    static method CheckPlatform(hw: Dict, factors: seq<Factor>) returns (fs: seq<Factor>)
      ensures fs == factors + PlatformFactors(hw)
    {
      fs := factors;
      var platform := Get(hw, "platform");
      if Truthy(platform) && !(platform.Str? && platform.s in ValidPlatforms) {
        fs := fs + [Factor("unusual_platform", Low)];
      }
    }

    /** The timezone check of `_validate_additional_specs`. */
    static method CheckTimezone(hw: Dict, factors: seq<Factor>) returns (fs: seq<Factor>)
      ensures fs == factors + TimezoneFactors(hw)
    {
      fs := factors;
      var timezone := Get(hw, "timezone");
      if Truthy(timezone) {
        var offset := ToInt(timezone);
        if offset.None? {
          fs := fs + [Factor("malformed_timezone", Low)];
        } else if !(-720 <= offset.value <= 840) {
          fs := fs + [Factor("invalid_timezone", Low)];
        }
      }
    }

    /** `update_minimum_requirements`: both minimums are set when both are
        positive, and neither is changed otherwise. */
    method UpdateMinimumRequirements(cpuCores: int, ramGb: real) returns (updated: bool)
      modifies this
      ensures updated <==> cpuCores > 0 && ramGb > 0.0
      ensures updated ==> minCpuCores == cpuCores && minRamGb == ramGb
      ensures !updated ==> minCpuCores == old(minCpuCores) && minRamGb == old(minRamGb)
      ensures old(Valid()) ==> Valid()
    {
      if cpuCores <= 0 || ramGb <= 0.0 {
        return false;
      }
      minCpuCores := cpuCores;
      minRamGb := ramGb;
      return true;
    }
  }

  /** No data, or an empty dict, is invalid and reviewed, with the single
      medium `missing_hardware_info` factor. */
  lemma NoDataIsReviewed(hardware: Option<Dict>, minCpuCores: int, minRamGb: real)
    requires hardware.None? || hardware.value == map[]
    ensures HardwareVerdict(hardware, minCpuCores, minRamGb) == Ok(NoHardwareData)
    ensures !IsValidHardware(NoHardwareData) && HardwareRiskLevel(NoHardwareData) == Review
    ensures FactorsOf(NoHardwareData) == [Factor("missing_hardware_info", Medium)]
  {
  }

  /** A finding whose factor is high is an insufficiency. */
  lemma HighFindingIsInsufficient(f: Option<Finding>, hw: Dict, minCpuCores: int, minRamGb: real)
    requires f == CpuFinding(hw, minCpuCores) || f == RamFinding(hw, minRamGb) || f == ResolutionFinding(hw)
    ensures CountSeverity(FactorOf(f), High) > 0 ==> IssueOf(f) != []
    ensures IssueOf(f) == [] ==> FactorOf(f) == []
  {
  }

  /** Every high factor comes with an issue, so checked hardware is reviewed
      exactly when it has an issue, that is exactly when it is invalid. */
  lemma ReviewIffIssues(hardware: Option<Dict>, minCpuCores: int, minRamGb: real)
    requires HardwareVerdict(hardware, minCpuCores, minRamGb).Ok?
    ensures var r := HardwareVerdict(hardware, minCpuCores, minRamGb).value;
      (HardwareRiskLevel(r) == Review <==> !IsValidHardware(r)) &&
      (r.Checked? ==> (IsValidHardware(r) <==> r.issues == []))
  {
    var r := HardwareVerdict(hardware, minCpuCores, minRamGb).value;
    if r.Checked? {
      var hw := hardware.value;
      var extra := AdditionalFactors(hw).value;
      var cpu, ram, res := CpuFinding(hw, minCpuCores), RamFinding(hw, minRamGb), ResolutionFinding(hw);
      HighFindingIsInsufficient(cpu, hw, minCpuCores, minRamGb);
      HighFindingIsInsufficient(ram, hw, minCpuCores, minRamGb);
      HighFindingIsInsufficient(res, hw, minCpuCores, minRamGb);
      CountSeverityZero(extra, High);
      if r.issues == [] {
        assert CoreFactors(hw, minCpuCores, minRamGb) == [];
        assert r.factors == extra;
      } else {
        assert CoreIssues(hw, minCpuCores, minRamGb) != [];
      }
    }
  }

  /** The low-severity checks never add an issue: the issues depend only on
      the core count, the RAM and the resolution. */
  lemma IssuesIgnoreExtras(hw1: Dict, hw2: Dict, minCpuCores: int, minRamGb: real)
    requires hw1 != map[] && hw2 != map[]
    requires Get(hw1, "cpu_cores") == Get(hw2, "cpu_cores") && Get(hw1, "ram_gb") == Get(hw2, "ram_gb")
    requires Get(hw1, "screen_resolution") == Get(hw2, "screen_resolution")
    requires HardwareVerdict(Some(hw1), minCpuCores, minRamGb).Ok? && HardwareVerdict(Some(hw2), minCpuCores, minRamGb).Ok?
    ensures HardwareVerdict(Some(hw1), minCpuCores, minRamGb).value.issues ==
      HardwareVerdict(Some(hw2), minCpuCores, minRamGb).value.issues
  {
    assert CpuFinding(hw1, minCpuCores) == CpuFinding(hw2, minCpuCores);
    assert RamFinding(hw1, minRamGb) == RamFinding(hw2, minRamGb);
    assert ResolutionFinding(hw1) == ResolutionFinding(hw2);
    VerdictIssues(hw1, minCpuCores, minRamGb);
    VerdictIssues(hw2, minCpuCores, minRamGb);
  }

  /** A checked verdict reports the core checks' issues. */
  lemma VerdictIssues(hw: Dict, minCpuCores: int, minRamGb: real)
    requires hw != map[] && HardwareVerdict(Some(hw), minCpuCores, minRamGb).Ok?
    ensures HardwareVerdict(Some(hw), minCpuCores, minRamGb).value == Checked(CoreIssues(hw, minCpuCores, minRamGb),
      CoreFactors(hw, minCpuCores, minRamGb) + AdditionalFactors(hw).value)
  {
  }

  /** One core and 2 GB under the default minimums: two high factors,
      invalid, reviewed. */
  lemma WeakMachine()
    ensures var r := HardwareVerdict(Some(map["cpu_cores" := Int(1), "ram_gb" := Int(2)]), 2, 4.0);
      r == Ok(Checked([InsufficientCpu, InsufficientRam],
        [Factor("insufficient_cpu", High), Factor("insufficient_ram", High)])) &&
      !IsValidHardware(r.value) && HardwareRiskLevel(r.value) == Review
  {
    var hw := map["cpu_cores" := Int(1), "ram_gb" := Int(2)];
    assert "screen_resolution" !in hw && "platform" !in hw && "timezone" !in hw && "language" !in hw;
    assert PlatformFactors(hw) == [] && TimezoneFactors(hw) == [] && LanguageFactors(hw) == Ok([]);
    assert ResolutionFinding(hw) == None;
    assert CoreIssues(hw, 2, 4.0) == [InsufficientCpu, InsufficientRam];
    assert CoreFactors(hw, 2, 4.0) == [Factor("insufficient_cpu", High), Factor("insufficient_ram", High)];
    assert PlatformFactors(hw) + TimezoneFactors(hw) + LanguageFactors(hw).value == [];
    assert AdditionalFactors(hw) == Ok([]);
    assert CoreFactors(hw, 2, 4.0) + [] == CoreFactors(hw, 2, 4.0);
  }

  /** Lower-casing leaves a printed resolution as it is. */
  lemma LowerPrinted(sw: string, sh: string)
    requires AllDigits(sw) && AllDigits(sh)
    ensures Lower(sw + "x" + sh) == sw + "x" + sh
  {
    var s := sw + "x" + sh;
    forall i | 0 <= i < |s| ensures LowerChar(s[i]) == s[i] {
      if i < |sw| {
        assert s[i] == sw[i] && IsDigit(sw[i]);
      } else if i > |sw| {
        assert s[i] == sh[i - |sw| - 1] && IsDigit(sh[i - |sw| - 1]);
      }
    }
  }

  /** A run of digits survives `strip()` and parses to its value. */
  lemma TrimmedDigitsParse(t: string)
    requires t != [] && AllDigits(t)
    ensures ParseInt(Trim(t)) == Some(DigitsValue(t))
  {
    ParseUnsigned(t);
    assert AllDigits(t[1..]) by {
      forall i | 0 <= i < |t[1..]| ensures IsDigit(t[1..][i]) {
        assert t[1..][i] == t[i + 1];
      }
    }
    SignedDigitsTrimmed(t);
  }

  /** Splitting a printed resolution gives back the two numbers. */
  lemma SplitPrinted(sw: string, sh: string)
    requires sw != [] && sh != [] && AllDigits(sw) && AllDigits(sh)
    ensures var parts := Split(Lower(sw + "x" + sh), 'x');
      |parts| == 2 && ParseInt(Trim(parts[0])) == Some(DigitsValue(sw)) && ParseInt(Trim(parts[1])) == Some(DigitsValue(sh))
  {
    var s := sw + "x" + sh;
    LowerPrinted(sw, sh);
    assert Lower(s) == s;
    NonDigitAbsent(sw, 'x');
    NonDigitAbsent(sh, 'x');
    assert s == sw + ['x'] + sh;
    SplitJoin(sw, sh, 'x');
    assert Split(Lower(s), 'x') == [sw, sh];
    TrimmedDigitsParse(sw);
    TrimmedDigitsParse(sh);
  }

  /** A resolution printed as `WxH` is accepted exactly when W and H are in
      range and the screen is landscape. */
  lemma PrintedResolution(width: nat, height: nat)
    ensures ScreenResolutionValid(NatToString(width) + "x" + NatToString(height)) <==>
      (800 <= width <= 7680 && 600 <= height <= 4320 && width > height)
  {
    SplitPrinted(NatToString(width), NatToString(height));
    NatToStringValue(width);
    NatToStringValue(height);
  }

  /** A resolution without any 'x' is refused. */
  lemma NoSeparatorRefused(resolution: string)
    requires forall i :: 0 <= i < |resolution| ==> LowerChar(resolution[i]) != 'x'
    ensures !ScreenResolutionValid(resolution)
  {
    SplitWithout(Lower(resolution), 'x');
  }

  /** `extract_hardware_from_user_agent`: nothing for an empty string;
      otherwise the platform the User-Agent names, if any, and the source
      markers. */
  function ExtractHardwareFromUserAgent(userAgent: string): (r: Dict)
    ensures userAgent == [] ==> r == map[]
    ensures userAgent != [] ==> "source" in r && r["source"] == Str("user_agent_fallback")
    ensures userAgent != [] ==> ("platform" in r <==>
      var ua := Lower(userAgent);
      Contains(ua, "windows") || Contains(ua, "macintosh") || Contains(ua, "mac os") || Contains(ua, "linux"))
    ensures "platform" in r ==> r["platform"].Str? && r["platform"].s in ValidPlatforms
  {
    if userAgent == [] then map[]
    else
      var ua := Lower(userAgent);
      var base := map["source" := Str("user_agent_fallback"), "limitations" := Str("Limited hardware detection via User-Agent")];
      if Contains(ua, "windows") then base["platform" := Str("Win32")]
      else if Contains(ua, "macintosh") || Contains(ua, "mac os") then base["platform" := Str("MacIntel")]
      else if Contains(ua, "linux") then
        base["platform" := Str(if Contains(ua, "x86_64") then "Linux x86_64" else "Linux i686")]
      else base
  }

  /** A platform read from a User-Agent never draws the unusual-platform
      factor. */
  lemma ExtractedPlatformIsUsual(userAgent: string)
    ensures PlatformFactors(ExtractHardwareFromUserAgent(userAgent)) == []
  {
  }
}
