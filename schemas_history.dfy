/** The history endpoint's request and response shapes (schemas/history.py).
    Dates are timestamps in seconds. */
module HistorySchemas {
  import opened Wrappers
  import opened IdentitySchemas

  /** `HistoryFilters`, before validation. */
  datatype HistoryFilters = HistoryFilters(
    userId: Option<string>,
    startDate: Option<int>,
    endDate: Option<int>,
    riskLevel: Option<string>,
    actionType: Option<string>,
    page: int,
    limit: int,
    format: string)

  /** The filters with every default: page 1, 50 per page, JSON. */
  const DefaultFilters: HistoryFilters := HistoryFilters(None, None, None, None, None, 1, 50, "json")

  /** `validate_date_range`: with both dates given, the end must be strictly
      after the start; the end date is kept as it is. */
  function ValidateDateRange(startDate: Option<int>, endDate: Option<int>): (r: Result<Option<int>, string>)
    ensures r.Err? <==> startDate.Some? && endDate.Some? && endDate.value <= startDate.value
    ensures r.Ok? ==> r.value == endDate
  {
    if endDate.Some? && startDate.Some? && endDate.value <= startDate.value then Err("end_date must be after start_date")
    else Ok(endDate)
  }

  /** The filters pydantic accepts: page at least 1, 1 to 500 per page, a
      JSON or CSV format, and a consistent date range. */
  predicate ValidHistoryFilters(f: HistoryFilters) {
    f.page >= 1 && 1 <= f.limit <= 500 && (f.format == "json" || f.format == "csv") &&
    ValidateDateRange(f.startDate, f.endDate).Ok?
  }

  /** A start date alone, or an end date alone, is always accepted. */
  lemma OneDateAccepted(startDate: Option<int>, endDate: Option<int>)
    requires startDate.None? || endDate.None?
    ensures ValidateDateRange(startDate, endDate) == Ok(endDate)
  {
  }

  /** The defaults are valid. */
  lemma DefaultFiltersValid()
    ensures ValidHistoryFilters(DefaultFilters)
  {
  }

  /** `AssessmentRecord`; the risk factors stand for their dict form. */
  datatype AssessmentRecord = AssessmentRecord(
    assessmentId: string,
    userId: string,
    timestamp: int,
    ipAddress: string,
    confidenceScore: int,
    riskLevel: string,
    actionType: string,
    riskFactors: seq<RiskFactor>,
    deviceFingerprint: Option<string>,
    userAgent: string,
    processingTimeMs: int,
    transactionAmount: Option<real>)

  /** The bounds pydantic checks on a record. */
  predicate ValidAssessmentRecord(r: AssessmentRecord) {
    0 <= r.confidenceScore <= 100 && r.processingTimeMs >= 0
  }

  datatype PaginationInfo = PaginationInfo(
    currentPage: int,
    totalPages: int,
    totalRecords: nat,
    recordsPerPage: int,
    hasNext: bool,
    hasPrevious: bool)

  datatype AppliedFilters = AppliedFilters(
    userId: Option<string>,
    dateRange: Option<string>,
    riskLevel: Option<string>,
    actionType: Option<string>)

  const HistoryApiVersion: string := "1.0.0"

  datatype HistoryResponseMetadata = HistoryResponseMetadata(requestId: string, responseTimeMs: int, apiVersion: string)

  datatype HistoryResponse = HistoryResponse(
    data: seq<AssessmentRecord>,
    pagination: PaginationInfo,
    filtersApplied: AppliedFilters,
    metadata: HistoryResponseMetadata,
    timestamp: int,
    requestId: string)
}
