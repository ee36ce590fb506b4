/** The audit trail (models/audit_log.py): one row per security-relevant
    event, and the three constructors the risk engine uses. The row id and the
    server-side timestamp are left to the store. */
module AuditLogs {
  import opened Wrappers
  import opened Strings
  import opened Values

  datatype AuditSeverity = Info | Warn | Error

  datatype AuditLog = AuditLog(
    eventType: string,
    category: string,
    severity: AuditSeverity,
    requestId: Option<string>,
    userId: Option<string>,
    ipAddress: Option<string>,
    message: string,
    details: Option<Dict>,
    errorCode: Option<string>,
    errorMessage: Option<string>)

  /** `AuditLog.log_assessment_request` */
  function LogAssessmentRequest(requestId: string, userId: string, ipAddress: string, actionType: string): (r: AuditLog)
    ensures r.eventType == "assessment_request" && r.category == "security" && r.severity == Info
    ensures r.requestId == Some(requestId) && r.userId == Some(userId) && r.ipAddress == Some(ipAddress)
    ensures r.details.Some? && r.details.value.Keys == {"action_type", "request_source"}
    ensures Get(r.details.value, "action_type") == Str(actionType)
    ensures Get(r.details.value, "request_source") == Str("api")
    ensures r.errorMessage.None?
  {
    AuditLog("assessment_request", "security", Info, Some(requestId), Some(userId), Some(ipAddress),
      "Risk assessment requested for user " + userId + " from IP " + ipAddress,
      Some(map["action_type" := Str(actionType), "request_source" := Str("api")]),
      None, None)
  }

  /** `AuditLog.log_assessment_result`: a DENY is logged as a warning. */
  function LogAssessmentResult(requestId: string, userId: string, riskLevel: string, confidenceScore: int): (r: AuditLog)
    ensures r.eventType == "assessment_result" && r.category == "security"
    ensures r.severity == Warn <==> riskLevel == "DENY"
    ensures r.severity != Error
    ensures r.requestId == Some(requestId) && r.userId == Some(userId) && r.ipAddress.None?
    ensures r.details.Some? && r.details.value.Keys == {"risk_level", "confidence_score"}
    ensures Get(r.details.value, "risk_level") == Str(riskLevel)
    ensures Get(r.details.value, "confidence_score") == Int(confidenceScore)
  {
    AuditLog("assessment_result", "security", if riskLevel == "DENY" then Warn else Info,
      Some(requestId), Some(userId), None,
      "Risk assessment completed: " + riskLevel + " (score: " + IntToString(confidenceScore) + ")",
      Some(map["risk_level" := Str(riskLevel), "confidence_score" := Int(confidenceScore)]),
      None, None)
  }

  /** `AuditLog.log_error` */
  function LogError(eventType: string, errorMessage: string, requestId: Option<string>, userId: Option<string>, details: Option<Dict>): (r: AuditLog)
    ensures r.eventType == eventType && r.category == "error" && r.severity == Error
    ensures r.errorMessage == Some(errorMessage)
    ensures r.requestId == requestId && r.userId == userId && r.details == details
    ensures StartsWith(r.message, "Error in " + eventType + ": ")
    ensures r.message[|"Error in " + eventType + ": "|..] == errorMessage
  {
    var prefix := "Error in " + eventType + ": ";
    var m := prefix + errorMessage;
    assert m[..|prefix|] == prefix;
    assert m[|prefix|..] == errorMessage;
    AuditLog(eventType, "error", Error, requestId, userId, None, m, details, None, Some(errorMessage))
  }

  /** The printed score in a result message reads back as the score. */
  lemma ResultMessageScore(requestId: string, userId: string, riskLevel: string, confidenceScore: int)
    ensures var prefix := "Risk assessment completed: " + riskLevel + " (score: ";
            var m := LogAssessmentResult(requestId, userId, riskLevel, confidenceScore).message;
            StartsWith(m, prefix) && m[|m| - 1] == ')' &&
            ParseInt(m[|prefix|..|m| - 1]) == Some(confidenceScore)
  {
    var prefix := "Risk assessment completed: " + riskLevel + " (score: ";
    var digits := IntToString(confidenceScore);
    var m := prefix + digits + ")";
    assert LogAssessmentResult(requestId, userId, riskLevel, confidenceScore).message == m;
    assert m[..|prefix|] == prefix;
    assert m[|prefix|..|m| - 1] == digits;
    IntToStringRoundTrip(confidenceScore);
  }
}
