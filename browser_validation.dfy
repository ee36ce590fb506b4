/** Automation and headless-browser detection
    (services/browser_validation.py): User-Agent rules over a mutable,
    class-level list of automation patterns, and rules over the browser
    environment the client reports. Each risk factor is a name and a
    severity; the descriptions are not modelled. */
module BrowserValidation {
  import opened Wrappers
  import opened Strings
  import opened Values
  import opened Common

  /** The three default patterns that are not plain text. */
  const PythonVersionPattern: string := @"python/\d+\.\d+"
  const BotPattern: string := @"bot(?!.*mobile)"
  const ZombiePattern: string := @"zombie\.js"

  /** The initial `AUTOMATION_PATTERNS`, in order. */
  const DefaultPatterns: seq<string> := [
    "wget", "curl", "httpie", "aria2",
    "python-requests", "python-urllib", "python-httpx", PythonVersionPattern,
    "selenium", "webdriver", "puppeteer", "playwright", "phantomjs", "headlesschrome", "chromedriver", "geckodriver",
    "scrapy", "beautifulsoup", "mechanize", "requests-html",
    "robot", "crawler", "spider", BotPattern, "automated", "headless",
    "htmlunit", ZombiePattern, "jsdom"]

  /** `\d+\.\d+` matches at the start of `s`. */
  predicate VersionAtStart(s: string)
    decreases |s|
  {
    |s| >= 3 && IsDigit(s[0]) && ((s[1] == '.' && IsDigit(s[2])) || VersionAtStart(s[1..]))
  }

  /** `re.search(r'python/\d+\.\d+', ua)` */
  predicate PythonVersion(ua: string) {
    exists i | 0 <= i <= |ua| - 7 :: ContainsAt(ua, "python/", i) && VersionAtStart(ua[i + 7..])
  }

  /** The text before the first line break, which is as far as `.` reaches. */
  function FirstLine(s: string): (r: string)
    ensures |r| <= |s| && '\n' !in r
    decreases |s|
  {
    if s == [] || s[0] == '\n' then [] else [s[0]] + FirstLine(s[1..])
  }

  /** `re.search(r'bot(?!.*mobile)', ua)`: some "bot" is not followed by
      "mobile" on the same line. */
  predicate BotNotMobile(ua: string) {
    exists i | 0 <= i <= |ua| - 3 :: ContainsAt(ua, "bot", i) && !Contains(FirstLine(ua[i + 3..]), "mobile")
  }

  /** Four digits in a row start at index `i`. */
  predicate DigitRunAt(s: string, i: int) {
    0 <= i && i + 4 <= |s| && AllDigits(s[i..i + 4])
  }

  /** `re.search(r'\d{4,}', ua)` */
  predicate FourDigits(ua: string) {
    exists i | 0 <= i <= |ua| - 4 :: DigitRunAt(ua, i)
  }

  /** `re.search(pattern, ua)`. A pattern other than the three special
      defaults is matched as plain text. */
  predicate PatternMatches(pattern: string, ua: string) {
    if pattern == PythonVersionPattern then PythonVersion(ua)
    else if pattern == BotPattern then BotNotMobile(ua)
    else if pattern == ZombiePattern then Contains(ua, "zombie.js")
    else Contains(ua, pattern)
  }

  /** The patterns that match, in list order, as the loop collects them. */
  function Matching(patterns: seq<string>, ua: string): seq<string>
    decreases |patterns|
  {
    if patterns == [] then []
    else
      var last := patterns[|patterns| - 1];
      Matching(patterns[..|patterns| - 1], ua) + (if PatternMatches(last, ua) then [last] else [])
  }

  /** The same list defined from the front: the patterns that match, in the
      order of the list. */
  function Filter(patterns: seq<string>, ua: string): seq<string>
    decreases |patterns|
  {
    if patterns == [] then []
    else (if PatternMatches(patterns[0], ua) then [patterns[0]] else []) + Filter(patterns[1..], ua)
  }

  lemma {:induction false} FilterAppend(a: seq<string>, b: seq<string>, ua: string)
    ensures Filter(a + b, ua) == Filter(a, ua) + Filter(b, ua)
    decreases |a|
  {
    if a != [] {
      assert (a + b)[1..] == a[1..] + b;
      FilterAppend(a[1..], b, ua);
    } else {
      assert a + b == b;
    }
  }

  /** Collecting with the loop keeps the patterns in list order. */
  lemma {:induction false} MatchingIsFilter(patterns: seq<string>, ua: string)
    ensures Matching(patterns, ua) == Filter(patterns, ua)
    decreases |patterns|
  {
    if patterns != [] {
      var init, last := patterns[..|patterns| - 1], patterns[|patterns| - 1];
      MatchingIsFilter(init, ua);
      assert init + [last] == patterns;
      FilterAppend(init, [last], ua);
      assert [last][1..] == [];
    }
  }

  /** A pattern is reported exactly when it is listed and matches. */
  lemma {:induction false} MatchingIff(patterns: seq<string>, ua: string, p: string)
    ensures p in Matching(patterns, ua) <==> p in patterns && PatternMatches(p, ua)
    decreases |patterns|
  {
    if patterns != [] {
      var init, last := patterns[..|patterns| - 1], patterns[|patterns| - 1];
      MatchingIff(init, ua, p);
      assert patterns == init + [last];
    }
  }

  /** What `_check_suspicious_patterns` reports: pattern names and factors,
      in order. These checks look at the User-Agent as given, not lowered. */
  datatype Suspicion = Suspicion(patterns: seq<string>, riskFactors: seq<Factor>)

  function CheckSuspiciousPatterns(userAgent: string): (r: Suspicion)
    ensures "automation_detected" !in Names(r.riskFactors)
    ensures "very_short_user_agent" in r.patterns <==> |userAgent| < 20
    ensures "missing_mozilla" in r.patterns <==> !Contains(userAgent, "Mozilla")
    ensures "suspicious_version_numbers" in r.patterns <==> FourDigits(userAgent)
    ensures |r.patterns| == |r.riskFactors|
  {
    var short := |userAgent| < 20;
    var noMozilla := !Contains(userAgent, "Mozilla");
    var versions := FourDigits(userAgent);
    Suspicion(
      (if short then ["very_short_user_agent"] else []) +
      (if noMozilla then ["missing_mozilla"] else []) +
      (if versions then ["suspicious_version_numbers"] else []),
      (if short then [Factor("short_user_agent", Medium)] else []) +
      (if noMozilla then [Factor("missing_mozilla", Low)] else []) +
      (if versions then [Factor("suspicious_versions", Low)] else []))
  }

  /** The digits `s` starts with. */
  function LeadingDigits(s: string): (r: string)
    ensures |r| <= |s| && r == s[..|r|] && AllDigits(r)
    ensures |r| < |s| ==> !IsDigit(s[|r|])
    decreases |s|
  {
    if s == [] || !IsDigit(s[0]) then [] else [s[0]] + LeadingDigits(s[1..])
  }

  /** The group `(\d+\.\d+)` right at the start of `s`, both runs taken in
      full. */
  function VersionAt(s: string): (r: Option<string>)
    ensures r.Some? ==> StartsWith(s, r.value) && '.' in r.value && r.value[0] != '.' && r.value[|r.value| - 1] != '.'
  {
    var major := LeadingDigits(s);
    if major == [] || |major| == |s| || s[|major|] != '.' then None
    else
      var minor := LeadingDigits(s[|major| + 1..]);
      if minor == [] then None
      else
        assert s[..|major| + 1 + |minor|] == major + "." + minor;
        Some(major + "." + minor)
  }

  /** The version after the leftmost `marker` at or after `from` that is
      followed by one. */
  function FindVersion(ua: string, marker: string, from: nat): (r: Option<string>)
    ensures r.Some? ==> exists i :: from <= i && ContainsAt(ua, marker, i) && VersionAt(ua[i + |marker|..]) == r
    decreases |ua| - from
  {
    if from + |marker| > |ua| then None
    else if ContainsAt(ua, marker, from) && VersionAt(ua[from + |marker|..]).Some? then VersionAt(ua[from + |marker|..])
    else FindVersion(ua, marker, from + 1)
  }

  /** What `_extract_browser_info` reports. */
  datatype BrowserDetails = BrowserDetails(rawUserAgent: string, browser: string, version: string, platform: string)

  function VersionOr(v: Option<string>): string {
    if v.Some? then v.value else "unknown"
  }

  /** The text the version follows: `Version/` for Safari, the browser's
      own name otherwise. */
  function VersionMarker(browser: string): string {
    if browser == "Safari" then "Version/" else browser + "/"
  }

  /** Browser by the first of Chrome, Firefox, Safari, Edge it names, with
      the version after that name's marker; platform likewise. */
  function ExtractBrowserInfo(userAgent: string): (r: BrowserDetails)
    ensures r.rawUserAgent == userAgent
    ensures r.browser == "Chrome" <==> Contains(userAgent, "Chrome")
    ensures r.browser == "Firefox" <==> !Contains(userAgent, "Chrome") && Contains(userAgent, "Firefox")
    ensures r.browser == "unknown" <==> (!Contains(userAgent, "Chrome") && !Contains(userAgent, "Firefox") &&
      !Contains(userAgent, "Safari") && !Contains(userAgent, "Edge"))
    ensures r.browser == "Safari" <==> (!Contains(userAgent, "Chrome") && !Contains(userAgent, "Firefox") &&
      Contains(userAgent, "Safari"))
    ensures r.browser == "Edge" <==> (!Contains(userAgent, "Chrome") && !Contains(userAgent, "Firefox") &&
      !Contains(userAgent, "Safari") && Contains(userAgent, "Edge"))
    ensures r.browser == "unknown" ==> r.version == "unknown"
    ensures r.browser != "unknown" ==> r.version == VersionOr(FindVersion(userAgent, VersionMarker(r.browser), 0))
    ensures r.platform == "Windows" <==> Contains(userAgent, "Windows")
    ensures r.platform == "macOS" <==> !Contains(userAgent, "Windows") && Contains(userAgent, "Macintosh")
    ensures r.platform == "Linux" <==> (!Contains(userAgent, "Windows") && !Contains(userAgent, "Macintosh") &&
      Contains(userAgent, "Linux"))
    ensures r.platform == "Android" <==> (!Contains(userAgent, "Windows") && !Contains(userAgent, "Macintosh") &&
      !Contains(userAgent, "Linux") && Contains(userAgent, "Android"))
    ensures r.platform == "iOS" <==> (!Contains(userAgent, "Windows") && !Contains(userAgent, "Macintosh") &&
      !Contains(userAgent, "Linux") && !Contains(userAgent, "Android") &&
      (Contains(userAgent, "iPhone") || Contains(userAgent, "iPad")))
    ensures r.platform == "unknown" <==> (!Contains(userAgent, "Windows") && !Contains(userAgent, "Macintosh") &&
      !Contains(userAgent, "Linux") && !Contains(userAgent, "Android") &&
      !Contains(userAgent, "iPhone") && !Contains(userAgent, "iPad"))
  {
    var browser :=
      if Contains(userAgent, "Chrome") then "Chrome"
      else if Contains(userAgent, "Firefox") then "Firefox"
      else if Contains(userAgent, "Safari") then "Safari"
      else if Contains(userAgent, "Edge") then "Edge"
      else "unknown";
    var version := if browser == "unknown" then "unknown" else VersionOr(FindVersion(userAgent, VersionMarker(browser), 0));
    var platform :=
      if Contains(userAgent, "Windows") then "Windows"
      else if Contains(userAgent, "Macintosh") then "macOS"
      else if Contains(userAgent, "Linux") then "Linux"
      else if Contains(userAgent, "Android") then "Android"
      else if Contains(userAgent, "iPhone") || Contains(userAgent, "iPad") then "iOS"
      else "unknown";
    BrowserDetails(userAgent, browser, version, platform)
  }

  /** The result of `validate_user_agent`; `browserInfo` is None for the
      empty dict of the missing case. */
  datatype UaValidation = UaValidation(
    isLegitimate: bool,
    riskLevel: RiskLevel,
    detectedPatterns: seq<string>,
    browserInfo: Option<BrowserDetails>,
    riskFactors: seq<Factor>)

  const MissingUserAgent: UaValidation :=
    UaValidation(false, Review, ["missing_user_agent"], None, [Factor("missing_user_agent", High)])

  /** What `validate_user_agent` returns under a given pattern list. */
  function UserAgentVerdict(patterns: seq<string>, userAgent: string): UaValidation {
    if userAgent == [] then MissingUserAgent
    else
      var suspicion := CheckSuspiciousPatterns(userAgent);
      var detected := Matching(patterns, Lower(userAgent)) + suspicion.patterns;
      UaValidation(detected == [], if detected == [] then Allow else Review, detected,
        Some(ExtractBrowserInfo(userAgent)),
        suspicion.riskFactors + (if detected != [] then [Factor("automation_detected", High)] else []))
  }

  /** One finding of the environment checks: the issue and its factor. */
  datatype EnvIssue =
    | NoPlugins | ZeroPlugins | NoWebgl | NoCanvas
    | UnusualScreenDepth(depth: Value)
    | NoLanguages
    | WebDriverProperty
    | AutomationProperty(name: string)

  datatype EnvFinding = EnvFinding(issue: EnvIssue, factor: Factor)

  /** `browser_summary` */
  datatype BrowserSummary = BrowserSummary(hasPlugins: Value, pluginCount: Value, hasWebgl: Value, hasCanvas: Value, languageCount: nat)

  /** The result of `validate_browser_environment`. */
  datatype EnvValidation =
    | NoEnvironmentData
    | Examined(findings: seq<EnvFinding>, summary: BrowserSummary)

  function FindingFactors(fs: seq<EnvFinding>): (r: seq<Factor>)
    ensures |r| == |fs| && forall i :: 0 <= i < |fs| ==> r[i] == fs[i].factor
  {
    seq(|fs|, i requires 0 <= i < |fs| => fs[i].factor)
  }

  /** The reported factors; missing data is one medium factor. */
  function EnvFactors(e: EnvValidation): seq<Factor> {
    match e
    case NoEnvironmentData => [Factor("missing_browser_data", Medium)]
    case Examined(fs, _) => FindingFactors(fs)
  }

  /** `is_real_browser`: examined, no high factor and fewer than three
      medium ones. */
  predicate IsRealBrowser(e: EnvValidation) {
    e.Examined? && CountSeverity(FindingFactors(e.findings), High) == 0 &&
    CountSeverity(FindingFactors(e.findings), Medium) < 3
  }

  function EnvRiskLevel(e: EnvValidation): RiskLevel {
    if IsRealBrowser(e) then Allow else Review
  }

  const AutomationProperties: seq<string> := ["_phantom", "_selenium", "__webdriver_script_fn"]

  /** The property checks, in order, as the loop collects them. */
  function PropertyFindings(nav: Dict, props: seq<string>): seq<EnvFinding>
    decreases |props|
  {
    if props == [] then []
    else
      var last := props[|props| - 1];
      PropertyFindings(nav, props[..|props| - 1]) +
      (if !Get(nav, last).Null? then [EnvFinding(AutomationProperty(last), Factor("automation_prop_" + last, High))] else [])
  }

  /** A property finding is reported exactly for each listed property that
      is present and not null. */
  lemma {:induction false} PropertyFindingsIff(nav: Dict, props: seq<string>, prop: string)
    ensures EnvFinding(AutomationProperty(prop), Factor("automation_prop_" + prop, High)) in PropertyFindings(nav, props)
      <==> prop in props && !Get(nav, prop).Null?
    decreases |props|
  {
    if props != [] {
      var init, last := props[..|props| - 1], props[|props| - 1];
      PropertyFindingsIff(nav, init, prop);
      assert props == init + [last];
    }
  }

  /** What `_validate_navigator_properties` finds: `webdriver` exactly
      true, then the automation properties. */
  function NavigatorFindings(nav: Dict): seq<EnvFinding> {
    (if Get(nav, "webdriver") == Bool(true) then [EnvFinding(WebDriverProperty, Factor("webdriver_detected", High))] else []) +
    PropertyFindings(nav, AutomationProperties)
  }

  function Check(c: bool, f: EnvFinding): seq<EnvFinding> {
    if c then [f] else []
  }

  /** The plugin checks. An absent `has_plugins` counts as true and an
      explicit null as false. */
  function PluginFindings(d: Dict): seq<EnvFinding> {
    Check(!Truthy(GetOr(d, "has_plugins", Bool(true))), EnvFinding(NoPlugins, Factor("no_plugins", Medium))) +
    Check(NumEquals(GetOr(d, "plugin_count", Int(0)), 0), EnvFinding(ZeroPlugins, Factor("zero_plugins", Medium)))
  }

  /** The WebGL, Canvas and colour-depth checks. */
  function DisplayFindings(d: Dict): seq<EnvFinding> {
    var depth := Get(d, "screen_depth");
    Check(!Truthy(GetOr(d, "has_webgl", Bool(true))), EnvFinding(NoWebgl, Factor("no_webgl", Low))) +
    Check(!Truthy(GetOr(d, "has_canvas", Bool(true))), EnvFinding(NoCanvas, Factor("no_canvas", Medium))) +
    Check(!depth.Null? && !NumEquals(depth, 16) && !NumEquals(depth, 24) && !NumEquals(depth, 32),
      EnvFinding(UnusualScreenDepth(depth), Factor("unusual_screen_depth", Low)))
  }

  /** The checks before the navigator properties, in order. */
  function BasicFindings(d: Dict): seq<EnvFinding> {
    PluginFindings(d) + DisplayFindings(d) +
    Check(!Truthy(GetOr(d, "languages", List([]))), EnvFinding(NoLanguages, Factor("no_languages", Medium)))
  }

  function NoGetError(v: Value): string {
    "AttributeError: '" + TypeName(v) + "' object has no attribute 'get'"
  }

  /** What `validate_browser_environment` returns. A `languages` without a
      length (a present null among them) makes `len` raise, and so does
      truthy navigator data that is not a dict. */
  function EnvironmentVerdict(browserInfo: Option<Dict>): Result<EnvValidation, string> {
    if browserInfo.None? || browserInfo.value == map[] then Ok(NoEnvironmentData)
    else
      var d := browserInfo.value;
      var languages := GetOr(d, "languages", List([]));
      var nav := GetOr(d, "navigator_properties", Obj(map[]));
      if Truthy(languages) && Len(languages).None? then Err(LenError(languages))
      else if Truthy(nav) && !nav.Obj? then Err(NoGetError(nav))
      else if Len(languages).None? then Err(LenError(languages))
      else
        Ok(Examined(BasicFindings(d) + (if Truthy(nav) then NavigatorFindings(nav.fields) else []),
          BrowserSummary(Get(d, "has_plugins"), GetOr(d, "plugin_count", Int(0)), Get(d, "has_webgl"),
            Get(d, "has_canvas"), Len(languages).value)))
  }

  /** The `browser_validation` entry of the combined factors. */
  datatype BrowserOverview = BrowserOverview(userAgentLegitimate: bool, environmentValid: bool, overallRiskLevel: RiskLevel)

  /** The result of `get_browser_risk_factors`: the overview, then the User-Agent
      factors, then the environment factors. */
  datatype BrowserRiskFactors = BrowserRiskFactors(overview: BrowserOverview, riskFactors: seq<Factor>)

  /** The first occurrence of `x` removed, as `list.remove` does. */
  function RemoveFirst(s: seq<string>, x: string): (r: seq<string>)
    decreases |s|
  {
    if s == [] then []
    else if s[0] == x then s[1..]
    else [s[0]] + RemoveFirst(s[1..], x)
  }

  /** The service with its class-level pattern list; one instance stands for
      the class. */
  class BrowserValidator {
    var automationPatterns: seq<string>

    constructor ()
      ensures automationPatterns == DefaultPatterns
    {
      automationPatterns := DefaultPatterns;
    }

    /** `validate_user_agent`, collecting matching patterns in a loop. */
    method ValidateUserAgent(userAgent: string) returns (r: UaValidation)
      ensures r == UserAgentVerdict(automationPatterns, userAgent)
    {
      if userAgent == [] {
        return MissingUserAgent;
      }
      var detected: seq<string> := [];
      var browserInfo := ExtractBrowserInfo(userAgent);
      var lower := Lower(userAgent);
      for i := 0 to |automationPatterns|
        invariant detected == Matching(automationPatterns[..i], lower)
      {
        assert automationPatterns[..i + 1][..i] == automationPatterns[..i];
        if PatternMatches(automationPatterns[i], lower) {
          detected := detected + [automationPatterns[i]];
        }
      }
      assert automationPatterns[..|automationPatterns|] == automationPatterns;
      var suspicion := CheckSuspiciousPatterns(userAgent);
      detected := detected + suspicion.patterns;
      var riskFactors := suspicion.riskFactors;
      var isLegitimate := |detected| == 0;
      if detected != [] {
        riskFactors := riskFactors + [Factor("automation_detected", High)];
      }
      return UaValidation(isLegitimate, if isLegitimate then Allow else Review, detected, Some(browserInfo), riskFactors);
    }

    /** `_validate_navigator_properties`, with the loop over the automation
        properties. */
    static method ValidateNavigatorProperties(nav: Dict) returns (findings: seq<EnvFinding>)
      ensures findings == NavigatorFindings(nav)
    {
      findings := [];
      if Get(nav, "webdriver") == Bool(true) {
        findings := findings + [EnvFinding(WebDriverProperty, Factor("webdriver_detected", High))];
      }
      var head := findings;
      for i := 0 to |AutomationProperties|
        invariant findings == head + PropertyFindings(nav, AutomationProperties[..i])
      {
        var prop := AutomationProperties[i];
        assert AutomationProperties[..i + 1][..i] == AutomationProperties[..i];
        if !Get(nav, prop).Null? {
          findings := findings + [EnvFinding(AutomationProperty(prop), Factor("automation_prop_" + prop, High))];
        }
      }
      assert AutomationProperties[..|AutomationProperties|] == AutomationProperties;
    }

    /** The plugin, WebGL, Canvas and colour-depth checks that open
        `validate_browser_environment`. */
    static method CheckHeadlessIndicators(d: Dict) returns (findings: seq<EnvFinding>)
      ensures findings == PluginFindings(d) + DisplayFindings(d)
    {
      findings := CheckPlugins(d);
      findings := CheckDisplay(d, findings);
    }

    /** The plugin checks. */
    static method CheckPlugins(d: Dict) returns (findings: seq<EnvFinding>)
      ensures findings == PluginFindings(d)
    {
      findings := [];
      if !Truthy(GetOr(d, "has_plugins", Bool(true))) {
        findings := findings + [EnvFinding(NoPlugins, Factor("no_plugins", Medium))];
      }
      if NumEquals(GetOr(d, "plugin_count", Int(0)), 0) {
        findings := findings + [EnvFinding(ZeroPlugins, Factor("zero_plugins", Medium))];
      }
    }

    /** The WebGL, Canvas and colour-depth checks, after `findings`. */
    static method CheckDisplay(d: Dict, findings: seq<EnvFinding>) returns (fs: seq<EnvFinding>)
      ensures fs == findings + DisplayFindings(d)
    {
      var added: seq<EnvFinding> := [];
      if !Truthy(GetOr(d, "has_webgl", Bool(true))) {
        added := added + [EnvFinding(NoWebgl, Factor("no_webgl", Low))];
      }
      if !Truthy(GetOr(d, "has_canvas", Bool(true))) {
        added := added + [EnvFinding(NoCanvas, Factor("no_canvas", Medium))];
      }
      var depth := Get(d, "screen_depth");
      if !depth.Null? && !NumEquals(depth, 16) && !NumEquals(depth, 24) && !NumEquals(depth, 32) {
        added := added + [EnvFinding(UnusualScreenDepth(depth), Factor("unusual_screen_depth", Low))];
      }
      assert added == DisplayFindings(d);
      fs := findings + added;
    }

    /** `validate_browser_environment`, adding findings as the checks run. */
    static method ValidateBrowserEnvironment(browserInfo: Option<Dict>) returns (r: Result<EnvValidation, string>)
      ensures r == EnvironmentVerdict(browserInfo)
    {
      if browserInfo.None? || browserInfo.value == map[] {
        return Ok(NoEnvironmentData);
      }
      var d := browserInfo.value;
      var findings := CheckHeadlessIndicators(d);
      var pluginCount := GetOr(d, "plugin_count", Int(0));
      var languages := GetOr(d, "languages", List([]));
      if Truthy(languages) && Len(languages).None? {
        return Err(LenError(languages));
      }
      if !Truthy(languages) {
        findings := findings + [EnvFinding(NoLanguages, Factor("no_languages", Medium))];
      }
      assert findings == BasicFindings(d);
      var nav := GetOr(d, "navigator_properties", Obj(map[]));
      if Truthy(nav) {
        if !nav.Obj? {
          return Err(NoGetError(nav));
        }
        var navFindings := ValidateNavigatorProperties(nav.fields);
        findings := findings + navFindings;
      }
      assert findings == BasicFindings(d) + (if Truthy(nav) then NavigatorFindings(nav.fields) else []);
      var count := Len(languages);
      if count.None? {
        return Err(LenError(languages));
      }
      return Ok(Examined(findings, BrowserSummary(Get(d, "has_plugins"), pluginCount, Get(d, "has_webgl"),
        Get(d, "has_canvas"), count.value)));
    }

    /** `get_browser_risk_factors`: REVIEW overall exactly when either check
        reviews, with both checks' factors after the overview. */
    method GetBrowserRiskFactors(userAgent: string, browserInfo: Option<Dict>) returns (r: Result<BrowserRiskFactors, string>)
      ensures r.Err? <==> EnvironmentVerdict(browserInfo).Err?
      ensures r.Ok? ==>
        var ua := UserAgentVerdict(automationPatterns, userAgent);
        var env := EnvironmentVerdict(browserInfo).value;
        r.value.overview.userAgentLegitimate == ua.isLegitimate &&
        r.value.overview.environmentValid == IsRealBrowser(env) &&
        (r.value.overview.overallRiskLevel == Review <==> ua.riskLevel == Review || EnvRiskLevel(env) == Review) &&
        (r.value.overview.overallRiskLevel == Allow <==> ua.riskLevel == Allow && EnvRiskLevel(env) == Allow) &&
        r.value.riskFactors == ua.riskFactors + EnvFactors(env)
    {
      var ua := ValidateUserAgent(userAgent);
      var env := ValidateBrowserEnvironment(browserInfo);
      if env.Err? {
        return Err(env.error);
      }
      var e := env.value;
      var overall := if ua.riskLevel == Review || EnvRiskLevel(e) == Review then Review else Allow;
      return Ok(BrowserRiskFactors(BrowserOverview(ua.isLegitimate, IsRealBrowser(e), overall), ua.riskFactors + EnvFactors(e)));
    }

    /** `add_custom_automation_pattern`, where `compiles` says whether
        `re.compile` accepts the pattern: a new pattern that compiles is
        appended, anything else leaves the list alone. */
    method AddCustomAutomationPattern(pattern: string, compiles: bool) returns (added: bool)
      modifies this
      ensures added <==> compiles && pattern !in old(automationPatterns)
      ensures added ==> automationPatterns == old(automationPatterns) + [pattern]
      ensures !added ==> automationPatterns == old(automationPatterns)
    {
      if !compiles || pattern in automationPatterns {
        return false;
      }
      automationPatterns := automationPatterns + [pattern];
      return true;
    }

    /** `remove_automation_pattern`: the first occurrence is removed, if
        there is one. */
    method RemoveAutomationPattern(pattern: string) returns (removed: bool)
      modifies this
      ensures removed <==> pattern in old(automationPatterns)
      ensures automationPatterns == RemoveFirst(old(automationPatterns), pattern)
    {
      var patterns := automationPatterns;
      var i := 0;
      while i < |patterns| && patterns[i] != pattern
        invariant 0 <= i <= |patterns|
        invariant pattern !in patterns[..i]
      {
        assert patterns[..i + 1] == patterns[..i] + [patterns[i]];
        i := i + 1;
      }
      if i == |patterns| {
        assert patterns[..i] == patterns;
        RemoveFirstCounts(patterns, pattern);
        return false;
      }
      RemoveFirstAt(patterns, pattern, i);
      automationPatterns := patterns[..i] + patterns[i + 1..];
      return true;
    }
  }

  /** Removal cuts the list at the first occurrence. */
  lemma {:induction false} RemoveFirstAt(s: seq<string>, x: string, i: nat)
    requires i < |s| && s[i] == x && x !in s[..i]
    ensures RemoveFirst(s, x) == s[..i] + s[i + 1..]
    decreases i
  {
    if i > 0 {
      assert s[1..][..i - 1] == s[1..i];
      assert s[0] in s[..i];
      RemoveFirstAt(s[1..], x, i - 1);
      assert s[..i] == [s[0]] + s[1..i];
      assert s[i + 1..] == s[1..][i..];
    }
  }

  /** An empty User-Agent is not legitimate, is reviewed, and reports only
      `missing_user_agent`, as a high factor. */
  lemma EmptyUserAgent(patterns: seq<string>)
    ensures var r := UserAgentVerdict(patterns, "");
      !r.isLegitimate && r.riskLevel == Review && r.detectedPatterns == ["missing_user_agent"] &&
      r.riskFactors == [Factor("missing_user_agent", High)]
  {
  }

  /** The detected patterns are the listed patterns that match the lowered
      User-Agent, in list order, then the suspicious-pattern names. */
  lemma DetectedOrder(patterns: seq<string>, userAgent: string)
    requires userAgent != []
    ensures UserAgentVerdict(patterns, userAgent).detectedPatterns ==
      Filter(patterns, Lower(userAgent)) + CheckSuspiciousPatterns(userAgent).patterns
  {
    MatchingIsFilter(patterns, Lower(userAgent));
  }

  /** A listed pattern is detected exactly when it matches the lowered
      User-Agent. */
  lemma PatternDetectedIff(patterns: seq<string>, userAgent: string, p: string)
    requires userAgent != [] && p in patterns
    requires p !in CheckSuspiciousPatterns(userAgent).patterns
    ensures p in UserAgentVerdict(patterns, userAgent).detectedPatterns <==> PatternMatches(p, Lower(userAgent))
  {
    MatchingIff(patterns, Lower(userAgent), p);
  }

  /** Legitimate exactly when nothing was detected, reviewed exactly when
      not legitimate, and the high `automation_detected` factor present
      exactly when something was detected. */
  lemma LegitimacyRules(patterns: seq<string>, userAgent: string)
    requires userAgent != []
    ensures var r := UserAgentVerdict(patterns, userAgent);
      (r.isLegitimate <==> r.detectedPatterns == []) &&
      (r.riskLevel == Review <==> !r.isLegitimate) &&
      (r.riskLevel == Allow <==> r.isLegitimate) &&
      ("automation_detected" in Names(r.riskFactors) <==> r.detectedPatterns != [])
  {
    var r := UserAgentVerdict(patterns, userAgent);
    var s := CheckSuspiciousPatterns(userAgent);
    if r.detectedPatterns != [] {
      assert r.riskFactors == s.riskFactors + [Factor("automation_detected", High)];
      assert Names(r.riskFactors)[|s.riskFactors|] == "automation_detected";
    }
  }

  /** A User-Agent shorter than 20 characters, or one without "Mozilla", is
      never legitimate, whatever the pattern list. */
  lemma ShortOrForeignIsReviewed(patterns: seq<string>, userAgent: string)
    requires userAgent != []
    requires |userAgent| < 20 || !Contains(userAgent, "Mozilla")
    ensures !UserAgentVerdict(patterns, userAgent).isLegitimate
    ensures UserAgentVerdict(patterns, userAgent).riskLevel == Review
  {
  }

  /** The detected list of a non-empty User-Agent and the verdict it gives. */
  lemma VerdictOfDetected(patterns: seq<string>, userAgent: string)
    requires userAgent != []
    ensures var r := UserAgentVerdict(patterns, userAgent);
      r.detectedPatterns == Matching(patterns, Lower(userAgent)) + CheckSuspiciousPatterns(userAgent).patterns &&
      (r.isLegitimate <==> r.detectedPatterns == []) &&
      (r.riskLevel == if r.detectedPatterns == [] then Allow else Review)
  {
  }

  /** "curl/7.68.0" under the default list: `curl`, `very_short_user_agent`
      and `missing_mozilla` are detected, so it is not legitimate. */
  lemma CurlIsDetected()
    ensures var r := UserAgentVerdict(DefaultPatterns, "curl/7.68.0");
      "curl" in r.detectedPatterns && "very_short_user_agent" in r.detectedPatterns &&
      "missing_mozilla" in r.detectedPatterns && !r.isLegitimate
  {
    var ua := "curl/7.68.0";
    assert Lower(ua) == ua by {
      forall i | 0 <= i < |ua| ensures LowerChar(ua[i]) == ua[i] {
      }
    }
    assert ContainsAt(ua, "curl", 0);
    if Contains(ua, "Mozilla") {
      ContainsHasChar(ua, "Mozilla", 0);
      assert false;
    }
    assert "curl" in DefaultPatterns && PatternMatches("curl", ua);
    MatchingIff(DefaultPatterns, ua, "curl");
    var m := Matching(DefaultPatterns, ua);
    var sp := CheckSuspiciousPatterns(ua).patterns;
    VerdictOfDetected(DefaultPatterns, ua);
    assert UserAgentVerdict(DefaultPatterns, ua).detectedPatterns == m + sp;
  }

  /** A Chrome User-Agent carries a four-digit build number, so any
      User-Agent naming `Chrome/91.0.4472.124` is flagged with
      `suspicious_version_numbers` and is not legitimate. */
  lemma ChromeBuildNumberIsFlagged(patterns: seq<string>, before: string, after: string)
    ensures var r := UserAgentVerdict(patterns, before + "Chrome/91.0.4472.124" + after);
      "suspicious_version_numbers" in r.detectedPatterns && !r.isLegitimate && r.riskLevel == Review
  {
    var chrome := "Chrome/91.0.4472.124";
    var ua := before + chrome + after;
    var i := |before| + 12;
    assert ua[i..i + 4] == chrome[12..16];
    FourDigitsFlagged(patterns, ua, i);
  }

  /** A run of four digits anywhere flags a User-Agent. */
  lemma FourDigitsFlagged(patterns: seq<string>, userAgent: string, i: int)
    requires DigitRunAt(userAgent, i)
    ensures var r := UserAgentVerdict(patterns, userAgent);
      "suspicious_version_numbers" in r.detectedPatterns && !r.isLegitimate && r.riskLevel == Review
  {
    assert "suspicious_version_numbers" in CheckSuspiciousPatterns(userAgent).patterns;
    VerdictOfDetected(patterns, userAgent);
  }

  /** Missing environment data is never a real browser. */
  lemma NoEnvironmentIsReviewed(browserInfo: Option<Dict>)
    requires browserInfo.None? || browserInfo.value == map[]
    ensures EnvironmentVerdict(browserInfo) == Ok(NoEnvironmentData)
    ensures !IsRealBrowser(NoEnvironmentData) && EnvRiskLevel(NoEnvironmentData) == Review
    ensures EnvFactors(NoEnvironmentData) == [Factor("missing_browser_data", Medium)]
  {
  }

  /** A high factor rules out a real browser. */
  lemma HighFindingIsReviewed(fs: seq<EnvFinding>, summary: BrowserSummary, k: nat)
    requires k < |fs| && fs[k].factor.severity == High
    ensures !IsRealBrowser(Examined(fs, summary))
  {
    CountSeverityZero(FindingFactors(fs), High);
  }

  /** `webdriver` set to true in the navigator data: a high factor, so not a
      real browser. */
  lemma WebDriverIsReviewed(d: Dict)
    requires "navigator_properties" in d && d["navigator_properties"].Obj?
    requires Get(d["navigator_properties"].fields, "webdriver") == Bool(true)
    requires EnvironmentVerdict(Some(d)).Ok?
    ensures !IsRealBrowser(EnvironmentVerdict(Some(d)).value)
  {
    var e := EnvironmentVerdict(Some(d)).value;
    var basic := BasicFindings(d);
    assert e.findings[|basic|] == EnvFinding(WebDriverProperty, Factor("webdriver_detected", High));
    HighFindingIsReviewed(e.findings, e.summary, |basic|);
  }

  /** Any of the automation properties present and not null: a high factor,
      so not a real browser. */
  lemma AutomationPropertyIsReviewed(d: Dict, prop: string)
    requires "navigator_properties" in d && d["navigator_properties"].Obj?
    requires prop in AutomationProperties && !Get(d["navigator_properties"].fields, prop).Null?
    requires EnvironmentVerdict(Some(d)).Ok?
    ensures !IsRealBrowser(EnvironmentVerdict(Some(d)).value)
  {
    var nav := d["navigator_properties"].fields;
    var e := EnvironmentVerdict(Some(d)).value;
    var f := EnvFinding(AutomationProperty(prop), Factor("automation_prop_" + prop, High));
    PropertyFindingsIff(nav, AutomationProperties, prop);
    assert f in PropertyFindings(nav, AutomationProperties);
    var nf := NavigatorFindings(nav);
    assert f in nf;
    var j :| 0 <= j < |nf| && nf[j] == f;
    assert prop in nav;
    assert GetOr(d, "navigator_properties", Obj(map[])) == Obj(nav) && Truthy(Obj(nav));
    var basic := BasicFindings(d);
    assert e.findings == basic + nf;
    assert e.findings[|basic| + j] == f;
    HighFindingIsReviewed(e.findings, e.summary, |basic| + j);
  }

  /** A `languages` explicitly null makes the check raise. */
  lemma NullLanguagesRaise(d: Dict)
    requires d != map[] && "languages" in d && d["languages"] == Null
    ensures EnvironmentVerdict(Some(d)).Err?
  {
  }

  /** Removing a pattern that was just added restores the list. */
  lemma {:induction false} AddThenRemove(patterns: seq<string>, pattern: string)
    requires pattern !in patterns
    ensures RemoveFirst(patterns + [pattern], pattern) == patterns
    decreases |patterns|
  {
    if patterns != [] {
      assert (patterns + [pattern])[1..] == patterns[1..] + [pattern];
      AddThenRemove(patterns[1..], pattern);
    }
  }

  /** Removal takes out one occurrence when there is one and changes nothing
      otherwise. */
  lemma {:induction false} RemoveFirstCounts(patterns: seq<string>, pattern: string)
    ensures pattern !in patterns ==> RemoveFirst(patterns, pattern) == patterns
    ensures pattern in patterns ==> (|RemoveFirst(patterns, pattern)| == |patterns| - 1 &&
      multiset(RemoveFirst(patterns, pattern)) == multiset(patterns) - multiset{pattern})
    decreases |patterns|
  {
    if patterns != [] {
      RemoveFirstCounts(patterns[1..], pattern);
      assert patterns == [patterns[0]] + patterns[1..];
    }
  }
}
