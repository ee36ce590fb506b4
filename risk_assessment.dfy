/** A stored assessment (models/risk_assessment.py) and its `to_dict`
    view. */
module Assessments {
  import opened Wrappers
  import opened Values
  import opened IdentitySchemas
  import opened ProxyCheck

  /** One row of `risk_assessments`. `riskFactors` is a JSON column and may
      read back as null; `sessionData` is the stored JSON value (Null when
      absent); `createdAt` is the server-side insertion time, if set. */
  datatype RiskAssessment = RiskAssessment(
    requestId: string,
    userId: string,
    ipAddress: string,
    userAgent: string,
    actionType: string,
    transactionAmount: Option<real>,
    confidenceScore: int,
    riskLevel: string,
    riskFactors: Option<seq<RiskFactor>>,
    recommendations: seq<Recommendation>,
    sessionData: Value,
    proxycheckResponse: Option<Reputation>,
    processingTimeMs: int,
    apiVersion: string,
    createdAt: Option<int>)

  datatype AssessmentDict = AssessmentDict(
    assessmentId: string,
    userId: string,
    timestamp: Option<int>,
    ipAddress: string,
    confidenceScore: int,
    riskLevel: string,
    actionType: string,
    riskFactors: Option<seq<RiskFactor>>,
    deviceFingerprint: Value,
    userAgent: string,
    processingTimeMs: int,
    transactionAmount: Option<real>)

  /** `RiskAssessment.to_dict`. Non-empty session data that is not a dict
      has no `.get` and raises. */
  function ToDict(a: RiskAssessment): (r: Result<AssessmentDict, string>)
    ensures r.Err? <==> (Truthy(a.sessionData) && !a.sessionData.Obj?)
    ensures r.Ok? ==> r.value.assessmentId == a.requestId
    ensures r.Ok? ==> (r.value.timestamp.None? <==> a.createdAt.None?)
    ensures r.Ok? ==> (r.value.timestamp == a.createdAt && r.value.ipAddress == a.ipAddress
      && r.value.processingTimeMs == a.processingTimeMs && r.value.transactionAmount == a.transactionAmount)
    ensures r.Ok? ==> (r.value.deviceFingerprint ==
      if a.sessionData.Obj? && a.sessionData.fields != map[]
      then Get(a.sessionData.fields, "device_fingerprint") else Null)
    ensures r.Ok? ==> (r.value.userId == a.userId && r.value.confidenceScore == a.confidenceScore
      && r.value.riskLevel == a.riskLevel && r.value.actionType == a.actionType
      && r.value.riskFactors == a.riskFactors && r.value.userAgent == a.userAgent)
  {
    if Truthy(a.sessionData) && !a.sessionData.Obj? then Err("AttributeError: object has no attribute 'get'")
    else
      var fp := if Truthy(a.sessionData) then Get(a.sessionData.fields, "device_fingerprint") else Null;
      Ok(AssessmentDict(a.requestId, a.userId, a.createdAt, a.ipAddress, a.confidenceScore, a.riskLevel,
        a.actionType, a.riskFactors, fp, a.userAgent, a.processingTimeMs, a.transactionAmount))
  }

  /** Session data the engine wrote (a dict) always converts, and without
      session data the fingerprint is None. */
  lemma ToDictTotalOnEngineRows(a: RiskAssessment)
    requires a.sessionData.Obj? || a.sessionData.Null?
    ensures ToDict(a).Ok?
    ensures a.sessionData.Null? ==> ToDict(a).value.deviceFingerprint == Null
  {
  }
}
