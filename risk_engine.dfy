/** The IP-reputation risk engine (services/risk_engine.py): an additive
    confidence score clamped to [0, 100], its mapping to a verdict by two
    thresholds, one risk factor, the recommendations for the verdict, and the
    fixed fallback returned whenever the assessment raises. The clock, the
    request id and the measured processing time are parameters. */
module RiskEngine {
  import opened Wrappers
  import opened Strings
  import opened Values
  import opened Common
  import opened ProxyCheck
  import opened IdentitySchemas
  import opened Assessments
  import opened AuditLogs
  import opened Store

  /** The thresholds' defaults (core/config.py). */
  const DefaultAllowThreshold: int := 70
  const DefaultReviewThreshold: int := 30

  /** `_analyze_ip_reputation`: without an API key the mock record is used,
      and a failed live lookup falls back to it as well. */
  function AnalyzeIpReputation(apiKeyConfigured: bool, lookup: Lookup, ip: string): (r: Reputation)
    ensures !apiKeyConfigured ==> r == MockResponse(ip)
    ensures apiKeyConfigured && CheckIp(lookup, ip).Ok? ==> r == CheckIp(lookup, ip).value
    ensures apiKeyConfigured && CheckIp(lookup, ip).Err? ==> r == MockResponse(ip)
  {
    if !apiKeyConfigured then MockResponse(ip)
    else
      match CheckIp(lookup, ip)
      case Ok(rep) => rep
      case Err(_) => MockResponse(ip)
  }

  /** The analysis always carries the live record's or the mock's risk, so
      scoring it starts from a number. */
  lemma AnalysisIsLiveOrMock(apiKeyConfigured: bool, lookup: Lookup, ip: string)
    ensures var a := AnalyzeIpReputation(apiKeyConfigured, lookup, ip);
      a == MockResponse(ip) || (apiKeyConfigured && lookup.Fetched? && CheckIp(lookup, ip) == Ok(a))
  {
  }

  /** The AttributeError a non-string field raises at `.lower()`/`.upper()`. */
  function NoAttribute(v: Value, attribute: string): string {
    "'" + TypeName(v) + "' object has no attribute '" + attribute + "'"
  }

  const HighRiskCountries: seq<string> := ["CN", "RU", "KP", "IR"]

  /** The connection-type adjustment, for the lower-cased type. */
  function TypeAdjustment(connectionType: string): int {
    if connectionType in ["hosting", "datacenter"] then -20
    else if connectionType == "mobile" then -5
    else if connectionType == "residential" then 5
    else 0
  }

  /** `max(0, min(100, x))` */
  function Clamp(x: int): (r: int)
    ensures 0 <= r <= 100
    ensures 0 <= x <= 100 ==> r == x
    ensures x < 0 ==> r == 0
    ensures x > 100 ==> r == 100
  {
    if x < 0 then 0 else if x > 100 then 100 else x
  }

  /** The score before clamping: 100 minus the provider's risk, minus 30 for
      a proxy, plus the connection-type adjustment, minus 15 for a high-risk
      country. */
  function RawScore(risk: int, proxy: string, connectionType: string, country: string): int {
    100 - risk - (if proxy == "yes" then 30 else 0) + TypeAdjustment(connectionType)
      - (if country in HighRiskCountries then 15 else 0)
  }

  /** The confidence score as one formula over the case-folded fields; Err is
      the AttributeError of the first field that is not a string. */
  function ConfidenceScore(a: Reputation): (r: Result<int, string>)
    ensures r.Ok? <==> a.proxy.Str? && a.connectionType.Str? && a.country.Str?
    ensures r.Ok? ==> 0 <= r.value <= 100
  {
    if !a.proxy.Str? then Err(NoAttribute(a.proxy, "lower"))
    else if !a.connectionType.Str? then Err(NoAttribute(a.connectionType, "lower"))
    else if !a.country.Str? then Err(NoAttribute(a.country, "upper"))
    else Ok(Clamp(RawScore(a.risk, Lower(a.proxy.s), Lower(a.connectionType.s), Upper(a.country.s))))
  }

  /** `_calculate_ip_based_score`, adjusting the base score step by step. */
  method CalculateIpBasedScore(a: Reputation) returns (r: Result<int, string>)
    ensures r == ConfidenceScore(a)
  {
    var baseScore := 100;
    baseScore := baseScore - a.risk;
    if !a.proxy.Str? {
      return Err(NoAttribute(a.proxy, "lower"));
    }
    if Lower(a.proxy.s) == "yes" {
      baseScore := baseScore - 30;
    }
    if !a.connectionType.Str? {
      return Err(NoAttribute(a.connectionType, "lower"));
    }
    var connectionType := Lower(a.connectionType.s);
    if connectionType in ["hosting", "datacenter"] {
      baseScore := baseScore - 20;
    } else if connectionType == "mobile" {
      baseScore := baseScore - 5;
    } else if connectionType == "residential" {
      baseScore := baseScore + 5;
    }
    if !a.country.Str? {
      return Err(NoAttribute(a.country, "upper"));
    }
    var country := Upper(a.country.s);
    if country in HighRiskCountries {
      baseScore := baseScore - 15;
    }
    return Ok(if baseScore < 0 then 0 else if baseScore > 100 then 100 else baseScore);
  }

  /** Both mock records score 100: the private one is clamped from 104. */
  lemma MockScoresFull(ip: string)
    ensures ConfidenceScore(MockResponse(ip)) == Ok(100)
  {
    assert Lower("no") == "no";
    assert Lower("Residential") == "residential";
    var a := MockResponse(ip);
    assert Upper(a.country.s) !in HighRiskCountries by {
      if IsPrivatePrefix(ip) {
        assert Upper("Private") == "PRIVATE";
      } else {
        assert Upper("US") == "US";
      }
    }
  }

  /** A proxy on a hosting connection with provider risk 80 scores 0. */
  lemma ProxyHostingScoresZero(a: Reputation)
    requires a.risk == 80 && a.proxy == Str("yes") && a.connectionType == Str("hosting") && a.country.Str?
    ensures ConfidenceScore(a) == Ok(0)
  {
    assert Lower("yes") == "yes";
    assert Lower("hosting") == "hosting";
  }

  /** A higher provider risk never raises the score. */
  lemma ScoreAntitoneInRisk(a: Reputation, risk: int)
    requires ConfidenceScore(a).Ok? && risk >= a.risk
    ensures ConfidenceScore(a.(risk := risk)).Ok?
    ensures ConfidenceScore(a.(risk := risk)).value <= ConfidenceScore(a).value
  {
  }

  /** Flagging the address as a proxy never raises the score. */
  lemma ProxyNeverHelps(a: Reputation)
    requires ConfidenceScore(a).Ok?
    ensures ConfidenceScore(a.(proxy := Str("yes"))).Ok?
    ensures ConfidenceScore(a.(proxy := Str("yes"))).value <= ConfidenceScore(a).value
  {
    assert Lower("yes") == "yes";
  }

  /** Scoring ignores the case of the proxy flag, of the type and of the
      country: two records that agree on the risk and on those three strings
      up to case score alike. */
  lemma ScoreIgnoresCase(a: Reputation, b: Reputation)
    requires a.risk == b.risk
    requires a.proxy.Str? && b.proxy.Str? && Lower(a.proxy.s) == Lower(b.proxy.s)
    requires a.connectionType.Str? && b.connectionType.Str? && Lower(a.connectionType.s) == Lower(b.connectionType.s)
    requires a.country.Str? && b.country.Str? && Upper(a.country.s) == Upper(b.country.s)
    ensures ConfidenceScore(a) == ConfidenceScore(b)
  {
  }

  /** A shouted proxy flag, a capitalised type and a lower-case country
      count as the canonical ones. */
  lemma MixedCaseHostingProxy(a: Reputation)
    requires a.proxy == Str("YES") && a.connectionType == Str("Hosting") && a.country == Str("cn")
    ensures ConfidenceScore(a) == ConfidenceScore(a.(proxy := Str("yes"), connectionType := Str("hosting"), country := Str("CN")))
    ensures ConfidenceScore(a) == Ok(Clamp(100 - a.risk - 30 - 20 - 15))
  {
    assert Lower("YES") == "yes" && Lower("yes") == "yes";
    assert Lower("Hosting") == "hosting" && Lower("hosting") == "hosting";
    assert Upper("cn") == "CN" && Upper("CN") == "CN";
    ScoreIgnoresCase(a, a.(proxy := Str("yes"), connectionType := Str("hosting"), country := Str("CN")));
  }

  /** `_determine_risk_level` */
  function DetermineRiskLevel(score: int, allowThreshold: int, reviewThreshold: int): (r: RiskLevel)
    ensures r == Allow <==> score >= allowThreshold
    ensures r == Review <==> reviewThreshold <= score < allowThreshold
    ensures r == Deny <==> score < allowThreshold && score < reviewThreshold
  {
    if score >= allowThreshold then Allow
    else if score >= reviewThreshold then Review
    else Deny
  }

  /** With the review threshold at most the allow threshold, a higher score
      never gives a stricter verdict. */
  lemma LevelMonotone(s1: int, s2: int, allowThreshold: int, reviewThreshold: int)
    requires reviewThreshold <= allowThreshold && s1 <= s2
    ensures Strictness(DetermineRiskLevel(s2, allowThreshold, reviewThreshold))
      <= Strictness(DetermineRiskLevel(s1, allowThreshold, reviewThreshold))
  {
  }

  /** With the default thresholds: 70 and above allows, 30 to 69 reviews, and
      below 30 denies. */
  lemma DefaultLevels(score: int)
    ensures DetermineRiskLevel(score, DefaultAllowThreshold, DefaultReviewThreshold) ==
      if score >= 70 then Allow else if score >= 30 then Review else Deny
  {
  }

  /** `_format_ip_details`, by the kind of the message: the proxy check is
      case-sensitive here, the connection-type check is not. */
  function FormatIpDetails(a: Reputation): (r: Result<DetailKind, string>)
    ensures a.proxy == Str("yes") ==> r == Ok(ProxyDetected)
    ensures a.proxy != Str("yes") && !a.connectionType.Str? ==> r.Err?
    ensures a.proxy != Str("yes") && a.connectionType.Str? ==>
      r.Ok? && r.value != ProxyDetected && r.value != ServiceUnavailable &&
      (r.value == HostingConnection <==> Lower(a.connectionType.s) in ["hosting", "datacenter"])
  {
    if a.proxy == Str("yes") then Ok(ProxyDetected)
    else if !a.connectionType.Str? then Err(NoAttribute(a.connectionType, "lower"))
    else if Lower(a.connectionType.s) in ["hosting", "datacenter"] then Ok(HostingConnection)
    else Ok(CleanConnection)
  }

  /** `_create_risk_factors`: exactly one `ip_reputation` factor carrying the
      confidence score with weight 1.0 and the analysis it came from. */
  function CreateRiskFactors(a: Reputation, score: int): (r: Result<seq<RiskFactor>, string>)
    ensures r.Ok? <==> FormatIpDetails(a).Ok?
    ensures r.Ok? ==> |r.value| == 1 && r.value[0].factor == "ip_reputation" && r.value[0].score == score
    ensures r.Ok? ==> r.value[0].weight == 1.0 && r.value[0].details == FormatIpDetails(a).value
    ensures r.Ok? ==> r.value[0].proxycheckData == Some(Analysis(a))
  {
    match FormatIpDetails(a)
    case Ok(details) => Ok([RiskFactor("ip_reputation", score, 1.0, details, Some(Analysis(a)))])
    case Err(e) => Err(e)
  }

  /** A record that could be scored can also be described, so the factor is
      always built once the score is. */
  lemma ScoredIsDescribed(a: Reputation)
    requires ConfidenceScore(a).Ok?
    ensures CreateRiskFactors(a, ConfidenceScore(a).value).Ok?
    ensures forall i :: 0 <= i < |CreateRiskFactors(a, ConfidenceScore(a).value).value| ==>
      ValidRiskFactor(CreateRiskFactors(a, ConfidenceScore(a).value).value[i])
  {
  }

  /** The proxy flag is compared case-sensitively in the factor details but
      case-insensitively in the score: "YES" costs 30 points yet is not
      reported as a proxy. */
  lemma UpperCaseProxyNotReported(a: Reputation)
    requires a.proxy == Str("YES") && a.connectionType.Str? && a.country.Str?
    ensures ConfidenceScore(a) == ConfidenceScore(a.(proxy := Str("yes")))
    ensures FormatIpDetails(a) != Ok(ProxyDetected)
  {
    assert Lower("YES") == "yes" && Lower("yes") == "yes";
  }

  /** The actions recommended for a verdict, in order. */
  function RecommendedActions(level: RiskLevel, proxyIsYes: bool): seq<string> {
    match level
    case Allow => ["allow_with_standard_monitoring"]
    case Review =>
      if proxyIsYes then ["require_additional_verification", "enable_enhanced_monitoring"]
      else ["step_up_authentication"]
    case Deny => ["block_transaction", "alert_security_team", "log_for_investigation"]
  }

  /** The priority of every recommendation for a verdict. */
  function PriorityFor(level: RiskLevel): Severity {
    match level
    case Allow => Low
    case Review => Medium
    case Deny => High
  }

  function Actions(recs: seq<Recommendation>): (r: seq<string>)
    ensures |r| == |recs|
    ensures forall i :: 0 <= i < |recs| ==> r[i] == recs[i].action
  {
    seq(|recs|, i requires 0 <= i < |recs| => recs[i].action)
  }

  /** The recommendation texts. */
  function ApprovalMessage(actionType: string): string {
    Title(actionType) + " approved - good IP reputation"
  }

  function BlockMessage(actionType: string): string {
    "High risk IP detected - block " + actionType + " attempt"
  }

  function ProxyMessage(actionType: string): string {
    "Proxy/VPN detected - require additional verification for " + actionType
  }

  function StepUpMessage(actionType: string): string {
    "Medium risk detected - consider step-up authentication for " + actionType
  }

  const MonitoringMessage: string := "Enable enhanced monitoring for this session"
  const AlertMessage: string := "Alert security team for manual review"
  const InvestigationMessage: string := "Log for security investigation"

  /** `_generate_recommendations`: one entry for ALLOW, one or two for
      REVIEW (two when the proxy flag is exactly "yes"), three for DENY;
      every entry has the verdict's priority. */
  method GenerateRecommendations(a: Reputation, level: RiskLevel, actionType: string) returns (recs: seq<Recommendation>)
    ensures Actions(recs) == RecommendedActions(level, a.proxy == Str("yes"))
    ensures forall i :: 0 <= i < |recs| ==> recs[i].priority == PriorityFor(level)
    ensures level == Allow ==> recs[0].message == ApprovalMessage(actionType)
    ensures level == Deny ==> recs[0].message == BlockMessage(actionType)
  {
    if level == Allow {
      recs := [Recommendation("allow_with_standard_monitoring", Low, ApprovalMessage(actionType))];
    } else if level == Review {
      recs := ReviewRecommendations(a.proxy == Str("yes"), actionType);
    } else {
      recs := DenyRecommendations(actionType);
    }
  }

  /** The REVIEW entries. */
  method ReviewRecommendations(proxyIsYes: bool, actionType: string) returns (recs: seq<Recommendation>)
    ensures Actions(recs) == RecommendedActions(Review, proxyIsYes)
    ensures forall i :: 0 <= i < |recs| ==> recs[i].priority == Medium
  {
    if proxyIsYes {
      recs := [
        Recommendation("require_additional_verification", Medium, ProxyMessage(actionType)),
        Recommendation("enable_enhanced_monitoring", Medium, MonitoringMessage)];
    } else {
      recs := [Recommendation("step_up_authentication", Medium, StepUpMessage(actionType))];
    }
  }

  /** The DENY entries. */
  method DenyRecommendations(actionType: string) returns (recs: seq<Recommendation>)
    ensures Actions(recs) == RecommendedActions(Deny, false)
    ensures forall i :: 0 <= i < |recs| ==> recs[i].priority == High
    ensures recs[0].message == BlockMessage(actionType)
  {
    recs := [
      Recommendation("block_transaction", High, BlockMessage(actionType)),
      Recommendation("alert_security_team", High, AlertMessage),
      Recommendation("log_for_investigation", High, InvestigationMessage)];
  }

  /** `_create_fallback_response` */
  function FallbackResponse(requestId: string): (r: IdentityResponse)
    ensures r.confidenceScore == 50 && r.riskLevel == Review && r.requestId == requestId
    ensures |r.riskFactors| == 1 && r.riskFactors[0].factor == "system_error" && r.riskFactors[0].score == 50
    ensures r.riskFactors[0].weight == 1.0 && r.riskFactors[0].proxycheckData == Some(ErrorRecord("service_unavailable"))
    ensures |r.recommendations| == 1 && r.recommendations[0].action == "manual_review_required"
    ensures r.recommendations[0].priority == Medium
    ensures r.metadata.requestId == requestId && r.metadata.processingTimeMs == 100
    ensures ValidResponse(r)
  {
    IdentityResponse(
      50, Review,
      [RiskFactor("system_error", 50, 1.0, ServiceUnavailable, Some(ErrorRecord("service_unavailable")))],
      [Recommendation("manual_review_required", Medium, "Manual review required due to service unavailability")],
      Metadata(100, ApiVersion, requestId, MvpScope),
      requestId)
  }

  /** `_serialize_session_data`: the session's fields as a dict, the
      timestamp as its ISO text. */
  function SerializeSessionData(s: SessionData): (r: Value)
    ensures r.Obj? && r.fields.Keys == {"timestamp", "device_fingerprint", "additional_data"}
    ensures r.fields["timestamp"] == Str(s.timestamp)
    ensures r.fields["device_fingerprint"] == (if s.deviceFingerprint.Some? then Str(s.deviceFingerprint.value) else Null)
  {
    Obj(map[
      "timestamp" := Str(s.timestamp),
      "device_fingerprint" := if s.deviceFingerprint.Some? then Str(s.deviceFingerprint.value) else Null,
      "additional_data" := if s.additionalData.Some? then Obj(s.additionalData.value) else Null])
  }

  /** The row `_store_assessment` adds; `createdAt` is the insertion time. */
  function AssessmentRecord(request: IdentityRequest, response: IdentityResponse, analysis: Reputation, now: int): (r: RiskAssessment)
    ensures r.requestId == response.requestId && r.userId == request.userId && r.ipAddress == request.ipAddress
    ensures r.actionType == ActionName(request.context.actionType) && r.transactionAmount == request.context.amount
    ensures r.confidenceScore == response.confidenceScore && r.riskLevel == RiskLevelName(response.riskLevel)
    ensures r.riskFactors == Some(response.riskFactors) && r.recommendations == response.recommendations
    ensures r.sessionData == SerializeSessionData(request.sessionData) && r.proxycheckResponse == Some(analysis)
  {
    RiskAssessment(
      response.requestId, request.userId, request.ipAddress, request.userAgent,
      ActionName(request.context.actionType), request.context.amount,
      response.confidenceScore, RiskLevelName(response.riskLevel),
      Some(response.riskFactors), response.recommendations,
      SerializeSessionData(request.sessionData), Some(analysis),
      response.metadata.processingTimeMs, response.metadata.apiVersion, Some(now))
  }

  /** A stored assessment reads back through `to_dict` with its request id
      and the request's device fingerprint. */
  lemma StoredAssessmentReadsBack(request: IdentityRequest, response: IdentityResponse, analysis: Reputation, now: int)
    ensures var d := Assessments.ToDict(AssessmentRecord(request, response, analysis, now));
      d.Ok? && d.value.assessmentId == response.requestId && d.value.timestamp == Some(now) &&
      d.value.deviceFingerprint ==
        (if request.sessionData.deviceFingerprint.Some? then Str(request.sessionData.deviceFingerprint.value) else Null)
  {
    var v := SerializeSessionData(request.sessionData);
    assert "timestamp" in v.fields;
    assert Truthy(v);
  }

  /** The audit details of a failed assessment. */
  function FailureDetails(request: IdentityRequest): Dict {
    map["ip_address" := Str(request.ipAddress)]
  }

  /** `calculate_risk_score`. On success the request log, the assessment and
      the result log are written; when the assessment raises, the request log
      and an error log are written and the fallback is returned. The request
      id stands for the generated uuid and is fresh. */
  method CalculateRiskScore(
    db: Database, request: IdentityRequest, requestId: string, apiKeyConfigured: bool, lookup: Lookup,
    allowThreshold: int, reviewThreshold: int, processingTimeMs: nat, now: int)
    returns (response: IdentityResponse)
    requires db.Valid() && !HasRequestId(db.assessments, requestId)
    modifies db
    ensures db.Valid()
    ensures db.devices == old(db.devices) && db.accesses == old(db.accesses) && db.nextDeviceId == old(db.nextDeviceId)
    ensures response.requestId == requestId && ValidResponse(response)
    ensures var analysis := AnalyzeIpReputation(apiKeyConfigured, lookup, request.ipAddress);
      var requestLog := LogAssessmentRequest(requestId, request.userId, request.ipAddress, ActionName(request.context.actionType));
      match ConfidenceScore(analysis)
      case Ok(score) =>
        ScoredOutcome(response, requestId, analysis, score, allowThreshold, reviewThreshold, processingTimeMs) &&
        db.assessments == old(db.assessments) + [AssessmentRecord(request, response, analysis, now)] &&
        db.auditLogs == old(db.auditLogs) + [requestLog,
          LogAssessmentResult(requestId, request.userId, RiskLevelName(response.riskLevel), score)]
      case Err(e) =>
        response == FallbackResponse(requestId) &&
        db.assessments == old(db.assessments) &&
        db.auditLogs == old(db.auditLogs) + [requestLog,
          LogError("risk_assessment", e, Some(requestId), Some(request.userId), Some(FailureDetails(request)))]
  {
    var requestLog := LogAssessmentRequest(requestId, request.userId, request.ipAddress, ActionName(request.context.actionType));
    var analysis := AnalyzeIpReputation(apiKeyConfigured, lookup, request.ipAddress);
    var score := CalculateIpBasedScore(analysis);
    if score.Err? {
      response := RecordFailure(db, requestLog, request, requestId, score.error);
    } else {
      response := RecordScored(db, requestLog, request, requestId, analysis, score.value, allowThreshold, reviewThreshold,
        processingTimeMs, now);
    }
  }

  /** The `except` branch of `calculate_risk_score`: the error is logged
      and the fallback returned. */
  method RecordFailure(db: Database, requestLog: AuditLog, request: IdentityRequest, requestId: string, error: string)
    returns (response: IdentityResponse)
    requires db.Valid()
    modifies db
    ensures db.Valid()
    ensures db.devices == old(db.devices) && db.accesses == old(db.accesses) && db.nextDeviceId == old(db.nextDeviceId)
    ensures response == FallbackResponse(requestId) && ValidResponse(response)
    ensures db.assessments == old(db.assessments)
    ensures db.auditLogs == old(db.auditLogs) +
      [requestLog, LogError("risk_assessment", error, Some(requestId), Some(request.userId), Some(FailureDetails(request)))]
  {
    var errorLog := LogError("risk_assessment", error, Some(requestId), Some(request.userId), Some(FailureDetails(request)));
    db.auditLogs := db.auditLogs + [requestLog, errorLog];
    response := FallbackResponse(requestId);
  }

  /** The scored branch of `calculate_risk_score`: the assessment is stored
      and its result logged. */
  method RecordScored(db: Database, requestLog: AuditLog, request: IdentityRequest, requestId: string, analysis: Reputation, score: int,
      allowThreshold: int, reviewThreshold: int, processingTimeMs: nat, now: int)
    returns (response: IdentityResponse)
    requires db.Valid() && !HasRequestId(db.assessments, requestId)
    requires ConfidenceScore(analysis) == Ok(score)
    modifies db
    ensures db.Valid()
    ensures db.devices == old(db.devices) && db.accesses == old(db.accesses) && db.nextDeviceId == old(db.nextDeviceId)
    ensures response.requestId == requestId && ValidResponse(response)
    ensures ScoredOutcome(response, requestId, analysis, score, allowThreshold, reviewThreshold, processingTimeMs)
    ensures db.assessments == old(db.assessments) + [AssessmentRecord(request, response, analysis, now)]
    ensures db.auditLogs == old(db.auditLogs) +
      [requestLog, LogAssessmentResult(requestId, request.userId, RiskLevelName(response.riskLevel), score)]
  {
    response := ScoredResponse(request, requestId, analysis, score, allowThreshold, reviewThreshold, processingTimeMs);
    var record := AssessmentRecord(request, response, analysis, now);
    StoreAssessmentValid(db.assessments, record);
    db.assessments := db.assessments + [record];
    db.auditLogs := db.auditLogs + [requestLog, LogAssessmentResult(requestId, request.userId, RiskLevelName(response.riskLevel), score)];
  }

  /** What a scored response holds: the score, its level, the one IP
      factor, the recommended actions for the level and the metadata. */
  predicate ScoredOutcome(response: IdentityResponse, requestId: string, analysis: Reputation, score: int,
      allowThreshold: int, reviewThreshold: int, processingTimeMs: nat)
  {
    response.confidenceScore == score &&
    response.riskLevel == DetermineRiskLevel(score, allowThreshold, reviewThreshold) &&
    CreateRiskFactors(analysis, score).Ok? && response.riskFactors == CreateRiskFactors(analysis, score).value &&
    Actions(response.recommendations) == RecommendedActions(response.riskLevel, analysis.proxy == Str("yes")) &&
    response.metadata == Metadata(processingTimeMs, ApiVersion, requestId, MvpScope)
  }

  /** The response of a scored assessment: the level of the score, the one
      IP factor and the recommendations for the level. */
  method ScoredResponse(request: IdentityRequest, requestId: string, analysis: Reputation, score: int,
      allowThreshold: int, reviewThreshold: int, processingTimeMs: nat)
    returns (response: IdentityResponse)
    requires ConfidenceScore(analysis) == Ok(score)
    ensures response.requestId == requestId && ValidResponse(response)
    ensures ScoredOutcome(response, requestId, analysis, score, allowThreshold, reviewThreshold, processingTimeMs)
  {
    var level := DetermineRiskLevel(score, allowThreshold, reviewThreshold);
    ScoredIsDescribed(analysis);
    var factors := CreateRiskFactors(analysis, score).value;
    var recs := GenerateRecommendations(analysis, level, ActionName(request.context.actionType));
    response := IdentityResponse(score, level, factors, recs,
      Metadata(processingTimeMs, ApiVersion, requestId, MvpScope), requestId);
  }

  /** Without an API key every assessment allows with score 100 whenever the
      allow threshold is at most 100. */
  lemma MockAssessmentAllows(lookup: Lookup, ip: string, allowThreshold: int, reviewThreshold: int)
    requires allowThreshold <= 100
    ensures ConfidenceScore(AnalyzeIpReputation(false, lookup, ip)) == Ok(100)
    ensures DetermineRiskLevel(100, allowThreshold, reviewThreshold) == Allow
  {
    MockScoresFull(ip);
  }
}
