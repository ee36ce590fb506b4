/** Assessment history (services/history_service.py): conjunctive filters
    over the stored assessments, newest first, one page at a time, with the
    pagination arithmetic and the summary of the filters applied. The
    request id, the clock and the date formatting are parameters. */
module History {
  import opened Wrappers
  import opened Strings
  import opened Values
  import opened IdentitySchemas
  import opened Assessments
  import opened HistorySchemas
  import opened Store
  import Sorting

  /** A string filter is applied only when it is given and not empty. */
  predicate Given(f: Option<string>) {
    f.Some? && f.value != []
  }

  /** The rows satisfying `keep`, in their order: one `query.filter`. */
  function Where(rows: seq<RiskAssessment>, keep: RiskAssessment -> bool): (r: seq<RiskAssessment>)
    ensures |r| <= |rows|
    ensures forall a :: a in r <==> a in rows && keep(a)
    decreases |rows|
  {
    if rows == [] then []
    else
      var rest := Where(rows[1..], keep);
      assert forall a :: a in rows <==> a == rows[0] || a in rows[1..];
      (if keep(rows[0]) then [rows[0]] else []) + rest
  }

  /** `_apply_filters`: the user, the inclusive date bounds, the risk level
      and the action type, each refining the query when given. A row
      without `created_at` fails either date bound, as NULL does in SQL. */
  function ApplyFilters(rows: seq<RiskAssessment>, f: HistoryFilters): seq<RiskAssessment> {
    var byUser := if Given(f.userId) then Where(rows, (a: RiskAssessment) => a.userId == f.userId.value) else rows;
    var fromStart := if f.startDate.Some? then Where(byUser, (a: RiskAssessment) => a.createdAt.Some? && a.createdAt.value >= f.startDate.value) else byUser;
    var untilEnd := if f.endDate.Some? then Where(fromStart, (a: RiskAssessment) => a.createdAt.Some? && a.createdAt.value <= f.endDate.value) else fromStart;
    var byLevel := if Given(f.riskLevel) then Where(untilEnd, (a: RiskAssessment) => a.riskLevel == f.riskLevel.value) else untilEnd;
    if Given(f.actionType) then Where(byLevel, (a: RiskAssessment) => a.actionType == f.actionType.value) else byLevel
  }

  /** The conditions of the filters, stated once for a single row. */
  predicate MatchesFilters(a: RiskAssessment, f: HistoryFilters) {
    (Given(f.userId) ==> a.userId == f.userId.value) &&
    (f.startDate.Some? ==> a.createdAt.Some? && f.startDate.value <= a.createdAt.value) &&
    (f.endDate.Some? ==> a.createdAt.Some? && a.createdAt.value <= f.endDate.value) &&
    (Given(f.riskLevel) ==> a.riskLevel == f.riskLevel.value) &&
    (Given(f.actionType) ==> a.actionType == f.actionType.value)
  }

  /** The refinements combine conjunctively: a row is kept exactly when it
      meets every given filter. */
  lemma FiltersConjunctive(rows: seq<RiskAssessment>, f: HistoryFilters)
    ensures |ApplyFilters(rows, f)| <= |rows|
    ensures forall a :: a in ApplyFilters(rows, f) <==> a in rows && MatchesFilters(a, f)
  {
  }

  /** Filters that give nothing keep every row, in order. */
  lemma NoFiltersKeepAll(rows: seq<RiskAssessment>, f: HistoryFilters)
    requires !Given(f.userId) && f.startDate.None? && f.endDate.None? && !Given(f.riskLevel) && !Given(f.actionType)
    ensures ApplyFilters(rows, f) == rows
  {
  }

  /** Both date bounds are inclusive. */
  lemma DateBoundsInclusive(a: RiskAssessment, f: HistoryFilters)
    requires !Given(f.userId) && !Given(f.riskLevel) && !Given(f.actionType)
    requires a.createdAt.Some? && f.startDate == a.createdAt && f.endDate == a.createdAt
    ensures a in ApplyFilters([a], f)
  {
    FiltersConjunctive([a], f);
  }

  /** `math.ceil(total / limit)` */
  function PageCount(total: nat, limit: int): (r: nat)
    requires limit >= 1
  {
    (total + limit - 1) / limit
  }

  /** The page count is the least number of `limit`-sized pages that hold
      every record. */
  lemma PageCountIsCeiling(total: nat, limit: int)
    requires limit >= 1
    ensures total <= PageCount(total, limit) * limit
    ensures PageCount(total, limit) > 0 ==> (PageCount(total, limit) - 1) * limit < total
    ensures total == 0 <==> PageCount(total, limit) == 0
  {
    var q, r := (total + limit - 1) / limit, (total + limit - 1) % limit;
    assert total + limit - 1 == q * limit + r;
  }

  /** `(page - 1) * limit` */
  function Offset(page: int, limit: int): (r: int)
    ensures page >= 1 && limit >= 1 ==> 0 <= r
  {
    (page - 1) * limit
  }

  /** `.offset(offset).limit(limit)` over the ordered rows. */
  function PageOf<T>(sorted: seq<T>, page: int, limit: int): (r: seq<T>)
    requires page >= 1 && limit >= 1
    ensures |r| <= limit
    ensures Offset(page, limit) >= |sorted| ==> r == []
    ensures Offset(page, limit) < |sorted| ==>
      |r| == (if |sorted| - Offset(page, limit) < limit then |sorted| - Offset(page, limit) else limit)
    ensures forall i :: 0 <= i < |r| ==> Offset(page, limit) + i < |sorted| && r[i] == sorted[Offset(page, limit) + i]
  {
    var offset := Offset(page, limit);
    assert offset >= 0;
    var start := if offset < |sorted| then offset else |sorted|;
    var stop := if offset + limit < |sorted| then offset + limit else |sorted|;
    sorted[start..stop]
  }

  /** Record `k` of the ordered rows is on page `k / limit + 1` at position
      `k % limit`, and that page is within the page count. */
  lemma RecordOnItsPage<T>(sorted: seq<T>, limit: int, k: nat)
    requires limit >= 1 && k < |sorted|
    ensures k / limit + 1 <= PageCount(|sorted|, limit)
    ensures var page := PageOf(sorted, k / limit + 1, limit);
      k % limit < |page| && page[k % limit] == sorted[k]
  {
    var p := k / limit;
    assert k == p * limit + k % limit;
    assert Offset(p + 1, limit) == p * limit;
    PageCountIsCeiling(|sorted|, limit);
    assert (PageCount(|sorted|, limit) - p) * limit > 0;
  }

  function CreatedKey(a: RiskAssessment): Option<int> {
    a.createdAt
  }

  /** `_extract_device_fingerprint`: the session data's fingerprint when it
      is a non-empty dict, otherwise None. */
  function ExtractDeviceFingerprint(sessionData: Value): (r: Value)
    ensures sessionData.Obj? && sessionData.fields != map[] ==> r == Get(sessionData.fields, "device_fingerprint")
    ensures !sessionData.Obj? || sessionData.fields == map[] ==> r == Null
  {
    if Truthy(sessionData) && sessionData.Obj? then Get(sessionData.fields, "device_fingerprint") else Null
  }

  /** The history view and the stored row's `to_dict` agree on the
      fingerprint. */
  lemma FingerprintAgreesWithToDict(a: RiskAssessment)
    requires ToDict(a).Ok?
    ensures ToDict(a).value.deviceFingerprint == ExtractDeviceFingerprint(a.sessionData)
  {
  }

  /** `_convert_to_record`, with the checks pydantic makes on the result:
      a row without `created_at`, a score outside [0, 100], a negative
      processing time or a fingerprint that is not a string is refused. */
  function ConvertToRecord(a: RiskAssessment): (r: Result<AssessmentRecord, string>)
    ensures r.Ok? <==> (a.createdAt.Some? && 0 <= a.confidenceScore <= 100 && a.processingTimeMs >= 0 &&
      (ExtractDeviceFingerprint(a.sessionData).Str? || ExtractDeviceFingerprint(a.sessionData).Null?))
    ensures r.Ok? ==> ValidAssessmentRecord(r.value)
    ensures r.Ok? ==> r.value.assessmentId == a.requestId && r.value.timestamp == a.createdAt.value
    ensures r.Ok? ==> r.value.riskFactors == (if a.riskFactors.Some? then a.riskFactors.value else [])
    ensures r.Ok? ==> (r.value.deviceFingerprint.Some? <==> ExtractDeviceFingerprint(a.sessionData).Str?)
  {
    var fp := ExtractDeviceFingerprint(a.sessionData);
    if a.createdAt.None? then Err("timestamp: none is not an allowed value")
    else if !(0 <= a.confidenceScore <= 100) then Err("confidence_score: out of range")
    else if a.processingTimeMs < 0 then Err("processing_time_ms: negative")
    else if !(fp.Str? || fp.Null?) then Err("device_fingerprint: str type expected")
    else
      Ok(AssessmentRecord(a.requestId, a.userId, a.createdAt.value, a.ipAddress, a.confidenceScore, a.riskLevel,
        a.actionType, if a.riskFactors.Some? then a.riskFactors.value else [],
        if fp.Str? then Some(fp.s) else None, a.userAgent, a.processingTimeMs, a.transactionAmount))
  }

  /** The list comprehension: the first refused row fails the whole page. */
  function ConvertAll(rows: seq<RiskAssessment>): (r: Result<seq<AssessmentRecord>, string>)
    ensures r.Ok? <==> forall i :: 0 <= i < |rows| ==> ConvertToRecord(rows[i]).Ok?
    ensures r.Ok? ==> |r.value| == |rows| && forall i :: 0 <= i < |rows| ==> r.value[i] == ConvertToRecord(rows[i]).value
    decreases |rows|
  {
    if rows == [] then Ok([])
    else
      match ConvertToRecord(rows[0])
      case Err(e) => Err(e)
      case Ok(first) =>
        match ConvertAll(rows[1..])
        case Err(e) =>
          assert exists i :: 0 <= i < |rows| && ConvertToRecord(rows[i]).Err? by {
            var j :| 0 <= j < |rows[1..]| && ConvertToRecord(rows[1..][j]).Err?;
            assert rows[1..][j] == rows[j + 1];
          }
          Err(e)
        case Ok(rest) =>
          assert forall i :: 1 <= i < |rows| ==> rows[i] == rows[1..][i - 1];
          Ok([first] + rest)
  }

  /** `_create_filters_summary`; `day(t)` is `t.strftime('%Y-%m-%d')`. */
  function CreateFiltersSummary(f: HistoryFilters, day: int -> string): (r: AppliedFilters)
    ensures f.startDate.Some? && f.endDate.Some? ==> r.dateRange == Some(day(f.startDate.value) + " to " + day(f.endDate.value))
    ensures f.startDate.Some? && f.endDate.None? ==> r.dateRange == Some("from " + day(f.startDate.value))
    ensures f.startDate.None? && f.endDate.Some? ==> r.dateRange == Some("until " + day(f.endDate.value))
    ensures f.startDate.None? && f.endDate.None? ==> r.dateRange == None
    ensures r.userId == f.userId && r.riskLevel == f.riskLevel && r.actionType == f.actionType
  {
    var dateRange :=
      if f.startDate.Some? && f.endDate.Some? then Some(day(f.startDate.value) + " to " + day(f.endDate.value))
      else if f.startDate.Some? then Some("from " + day(f.startDate.value))
      else if f.endDate.Some? then Some("until " + day(f.endDate.value))
      else None;
    AppliedFilters(f.userId, dateRange, f.riskLevel, f.actionType)
  }

  /** `PaginationInfo` for `total` matching records. */
  function Pagination(f: HistoryFilters, total: nat): (r: PaginationInfo)
    requires ValidHistoryFilters(f)
    ensures r.totalPages >= 1 && r.totalRecords == total && r.currentPage == f.page && r.recordsPerPage == f.limit
    ensures r.hasNext <==> f.page < PageCount(total, f.limit)
    ensures r.hasPrevious <==> f.page > 1
    ensures r.totalPages == (if PageCount(total, f.limit) < 1 then 1 else PageCount(total, f.limit))
  {
    var pages := PageCount(total, f.limit);
    PaginationInfo(f.page, if pages < 1 then 1 else pages, total, f.limit, f.page < pages, f.page > 1)
  }

  /** `get_filtered_history` over the stored assessments. */
  function GetFilteredHistory(db: Database, f: HistoryFilters, requestId: string, responseTimeMs: int,
      now: int, day: int -> string): (r: Result<HistoryResponse, string>)
    reads db
    requires ValidHistoryFilters(f)
    ensures r.Ok? <==> ConvertAll(PageOf(OrderedMatches(db.assessments, f), f.page, f.limit)).Ok?
    ensures r.Ok? ==> r.value.requestId == requestId && r.value.metadata.requestId == requestId
    ensures r.Ok? ==> r.value.pagination == Pagination(f, |ApplyFilters(db.assessments, f)|)
    ensures r.Ok? ==> |r.value.data| <= f.limit
    ensures r.Ok? ==> |r.value.data| == |PageOf(OrderedMatches(db.assessments, f), f.page, f.limit)|
    ensures r.Ok? ==> r.value.filtersApplied == CreateFiltersSummary(f, day)
  {
    var sorted := OrderedMatches(db.assessments, f);
    var page := PageOf(sorted, f.page, f.limit);
    match ConvertAll(page)
    case Err(e) => Err(e)
    case Ok(records) =>
      Ok(HistoryResponse(records, Pagination(f, |sorted|), CreateFiltersSummary(f, day),
        HistoryResponseMetadata(requestId, responseTimeMs, HistoryApiVersion), now, requestId))
  }

  /** Sorting the matching rows keeps exactly them, newest first. */
  lemma SortedMatches(rows: seq<RiskAssessment>, f: HistoryFilters)
    ensures var sorted := Sorting.SortDesc(ApplyFilters(rows, f), CreatedKey);
      Sorting.SortedDesc(sorted, CreatedKey) && multiset(sorted) == multiset(ApplyFilters(rows, f)) &&
      forall i :: 0 <= i < |sorted| ==> sorted[i] in rows && MatchesFilters(sorted[i], f)
  {
    var matched := ApplyFilters(rows, f);
    var sorted := Sorting.SortDesc(matched, CreatedKey);
    Sorting.SortDescSorted(matched, CreatedKey);
    FiltersConjunctive(rows, f);
    forall i | 0 <= i < |sorted| ensures sorted[i] in rows && MatchesFilters(sorted[i], f) {
      assert sorted[i] in multiset(matched);
    }
  }

  /** The matching rows in `created_at`-descending order. */
  function OrderedMatches(rows: seq<RiskAssessment>, f: HistoryFilters): (r: seq<RiskAssessment>)
    ensures |r| == |ApplyFilters(rows, f)|
    ensures Sorting.SortedDesc(r, CreatedKey)
    ensures forall i :: 0 <= i < |r| ==> r[i] in rows && MatchesFilters(r[i], f)
  {
    SortedMatches(rows, f);
    Sorting.SortDesc(ApplyFilters(rows, f), CreatedKey)
  }

  /** A converted page holds, in order, the conversions of the ordered
      matching rows from the offset on. */
  lemma PageRecords(rows: seq<RiskAssessment>, f: HistoryFilters, data: seq<AssessmentRecord>)
    requires f.page >= 1 && f.limit >= 1
    requires ConvertAll(PageOf(OrderedMatches(rows, f), f.page, f.limit)) == Ok(data)
    ensures |data| == |PageOf(OrderedMatches(rows, f), f.page, f.limit)|
    ensures var sorted := OrderedMatches(rows, f);
      var offset := Offset(f.page, f.limit);
      forall i :: 0 <= i < |data| ==>
        offset + i < |sorted| &&
        ConvertToRecord(sorted[offset + i]) == Ok(data[i]) &&
        sorted[offset + i] in rows &&
        MatchesFilters(sorted[offset + i], f)
  {
    var sorted := OrderedMatches(rows, f);
    var page := PageOf(sorted, f.page, f.limit);
    assert |data| == |page|;
  }

  /** The page is the converted slice of the matching rows, newest first,
      starting at the offset: each record is the conversion of a stored row
      that meets every filter, and the rows are in `created_at`-descending
      order. */
  lemma PageContents(db: Database, f: HistoryFilters, requestId: string, responseTimeMs: int, now: int,
      day: int -> string, response: HistoryResponse)
    requires ValidHistoryFilters(f)
    requires GetFilteredHistory(db, f, requestId, responseTimeMs, now, day) == Ok(response)
    ensures |response.data| == |PageOf(OrderedMatches(db.assessments, f), f.page, f.limit)|
    ensures var sorted := OrderedMatches(db.assessments, f);
      var offset := Offset(f.page, f.limit);
      forall i :: 0 <= i < |response.data| ==>
        offset + i < |sorted| &&
        ConvertToRecord(sorted[offset + i]) == Ok(response.data[i]) &&
        sorted[offset + i] in db.assessments &&
        MatchesFilters(sorted[offset + i], f)
  {
    PageRecords(db.assessments, f, response.data);
  }

  /** No matching record: no data, one reported page and no next page. */
  lemma EmptyHistory(db: Database, f: HistoryFilters, requestId: string, responseTimeMs: int, now: int, day: int -> string)
    requires ValidHistoryFilters(f)
    requires ApplyFilters(db.assessments, f) == []
    ensures var r := GetFilteredHistory(db, f, requestId, responseTimeMs, now, day);
      r.Ok? && r.value.data == [] && r.value.pagination.totalPages == 1 && !r.value.pagination.hasNext &&
      r.value.pagination.totalRecords == 0
  {
    PageCountIsCeiling(0, f.limit);
  }
}
