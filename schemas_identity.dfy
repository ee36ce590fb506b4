/** The assessment request and response records and their field bounds
    (schemas/identity.py). */
module IdentitySchemas {
  import opened Wrappers
  import opened Values
  import opened Common
  import opened IpAddress
  import opened ProxyCheck

  /** `SessionData`; the timestamp is kept as its ISO-8601 text, which is
      what the engine stores. */
  datatype SessionData = SessionData(timestamp: string, deviceFingerprint: Option<string>, additionalData: Option<Dict>)

  datatype Context = Context(actionType: ActionType, amount: Option<real>, additionalContext: Option<Dict>)

  datatype IdentityRequest = IdentityRequest(
    userId: string,
    ipAddress: string,
    userAgent: string,
    sessionData: SessionData,
    context: Context)

  /** An amount, when given, is not negative. */
  predicate ValidContext(c: Context) {
    c.amount.None? || c.amount.value >= 0.0
  }

  /** The `validate_ip_address` validator: the address is kept when it
      parses, and otherwise the request is refused. */
  function ValidateIpAddress(v: string): (r: Result<string, string>)
    ensures r.Ok? <==> ValidIp(v)
    ensures r.Ok? ==> r.value == v
    ensures r.Err? ==> r.error == "Invalid IP address format"
  {
    if ValidIp(v) then Ok(v) else Err("Invalid IP address format")
  }

  /** Every bound `IdentityVerificationRequest` puts on its fields. */
  predicate ValidRequest(q: IdentityRequest) {
    1 <= |q.userId| <= 255 && ValidIp(q.ipAddress) && |q.userAgent| >= 1 && ValidContext(q.context)
  }

  /** What a factor's human-readable `details` says. */
  datatype DetailKind = ProxyDetected | HostingConnection | CleanConnection | ServiceUnavailable

  /** A factor's `proxycheck_data`: the reputation record the score came
      from, or an {"error": ...} record such as the fallback's. */
  datatype ProviderData = Analysis(reputation: Reputation) | ErrorRecord(error: string)

  datatype RiskFactor = RiskFactor(factor: string, score: int, weight: real, details: DetailKind, proxycheckData: Option<ProviderData>)

  predicate ValidRiskFactor(f: RiskFactor) {
    0 <= f.score <= 100 && 0.0 <= f.weight <= 1.0
  }

  datatype Recommendation = Recommendation(action: string, priority: Severity, message: string)

  const ApiVersion: string := "1.0.0-mvp"
  const MvpScope: string := "ip_reputation_only"

  datatype Metadata = Metadata(processingTimeMs: int, apiVersion: string, requestId: string, mvpScope: string)

  /** `IdentityVerificationResponse`; the response timestamp comes from the
      clock and is not part of the model. */
  datatype IdentityResponse = IdentityResponse(
    confidenceScore: int,
    riskLevel: RiskLevel,
    riskFactors: seq<RiskFactor>,
    recommendations: seq<Recommendation>,
    metadata: Metadata,
    requestId: string)

  /** Every bound the response model puts on its fields. */
  predicate ValidResponse(r: IdentityResponse) {
    0 <= r.confidenceScore <= 100 &&
    (forall i :: 0 <= i < |r.riskFactors| ==> ValidRiskFactor(r.riskFactors[i])) &&
    r.metadata.processingTimeMs >= 0
  }
}
