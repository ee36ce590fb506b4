/** The reputation provider adapter (services/proxycheck_client.py): the
    deterministic mock record, the normalisation of one provider entry, the
    handling of a parsed lookup payload, and the per-address aggregation of a
    batch lookup. The HTTP transport is not modelled: a lookup is either the
    parsed JSON payload or the message of the transport failure. */
module ProxyCheck {
  import opened Wrappers
  import opened Strings
  import opened Values

  const Unknown: Value := Str("unknown")

  /** The currency sub-record of a reputation entry. */
  datatype Currency = Currency(code: Value, name: Value, symbol: Value)

  /** A reputation record in the shape the engine reads: a normalised
      provider entry, or a mock record. The values the provider sends are
      kept as they came; `region`, `city` and `continent` are None in a mock
      record, which has no such keys. */
  datatype Reputation = Reputation(
    proxy: Value,
    connectionType: Value,
    risk: int,
    country: Value,
    isocode: Value,
    region: Option<Value>,
    city: Option<Value>,
    continent: Option<Value>,
    provider: Value,
    organisation: Value,
    asn: Value,
    timeZone: Value,
    currency: Currency,
    rawResponse: Dict)

  /** The address prefixes the mock treats as private networks. */
  predicate IsPrivatePrefix(ip: string) {
    StartsWith(ip, "10.") || StartsWith(ip, "192.168.") || StartsWith(ip, "172.")
  }

  const MockCurrency: Currency := Currency(Str("USD"), Str("US Dollar"), Str("$"))

  /** `get_mock_response` */
  function MockResponse(ip: string): (r: Reputation)
    ensures r.proxy == Str("no") && r.connectionType == Str("Residential")
    ensures IsPrivatePrefix(ip) ==> r.risk == 1 && r.country == Str("Private") && r.isocode == Str("PR")
    ensures IsPrivatePrefix(ip) ==> r.provider == Str("Private Network") && r.asn == Str("Private") && r.timeZone == Str("UTC")
    ensures !IsPrivatePrefix(ip) ==> r.risk == 5 && r.country == Str("US") && r.isocode == Str("US")
    ensures !IsPrivatePrefix(ip) ==> r.provider == Str("Generic ISP") && r.asn == Str("AS12345")
    ensures r.region.None? && r.city.None? && r.continent.None?
    ensures r.currency == MockCurrency
    ensures r.rawResponse == map["mock" := Bool(true), "ip" := Str(ip)]
  {
    var raw := map["mock" := Bool(true), "ip" := Str(ip)];
    if IsPrivatePrefix(ip) then
      Reputation(Str("no"), Str("Residential"), 1, Str("Private"), Str("PR"), None, None, None,
        Str("Private Network"), Str("Private"), Str("Private"), Str("UTC"), MockCurrency, raw)
    else
      Reputation(Str("no"), Str("Residential"), 5, Str("US"), Str("US"), None, None, None,
        Str("Generic ISP"), Str("Generic Organization"), Str("AS12345"), Str("America/New_York"), MockCurrency, raw)
  }

  /** The currency sub-record: each subfield read separately when the entry's
      currency is a dict, all three "unknown" otherwise. */
  function CurrencyOf(data: Dict): (r: Currency)
    ensures Get(data, "currency").Obj? ==>
      var c := Get(data, "currency").fields;
      r == Currency(GetOr(c, "code", Unknown), GetOr(c, "name", Unknown), GetOr(c, "symbol", Unknown))
    ensures !Get(data, "currency").Obj? ==> r == Currency(Unknown, Unknown, Unknown)
  {
    var c := Get(data, "currency");
    if c.Obj? then Currency(GetOr(c.fields, "code", Unknown), GetOr(c.fields, "name", Unknown), GetOr(c.fields, "symbol", Unknown))
    else Currency(Unknown, Unknown, Unknown)
  }

  /** `_normalize_response`; None where `int()` of the risk raises. Every
      field defaults to "unknown" and the risk to 0; the provider's
      "timezone" becomes "time_zone". */
  function Normalize(data: Dict): (r: Option<Reputation>)
    ensures r.Some? <==> ToInt(GetOr(data, "risk", Int(0))).Some?
    ensures r.Some? ==> r.value.risk == ToInt(GetOr(data, "risk", Int(0))).value
    ensures r.Some? ==> r.value.proxy == GetOr(data, "proxy", Unknown) && r.value.connectionType == GetOr(data, "type", Unknown)
    ensures r.Some? ==> r.value.country == GetOr(data, "country", Unknown) && r.value.isocode == GetOr(data, "isocode", Unknown)
    ensures r.Some? ==> r.value.region == Some(GetOr(data, "region", Unknown)) && r.value.city == Some(GetOr(data, "city", Unknown))
    ensures r.Some? ==> r.value.continent == Some(GetOr(data, "continent", Unknown))
    ensures r.Some? ==> r.value.provider == GetOr(data, "provider", Unknown) && r.value.organisation == GetOr(data, "organisation", Unknown)
    ensures r.Some? ==> r.value.asn == GetOr(data, "asn", Unknown)
    ensures r.Some? ==> r.value.timeZone == GetOr(data, "timezone", Unknown)
    ensures r.Some? ==> r.value.currency == CurrencyOf(data)
    ensures r.Some? ==> r.value.rawResponse == data
  {
    var risk := ToInt(GetOr(data, "risk", Int(0)));
    if risk.None? then None
    else
      Some(Reputation(
        GetOr(data, "proxy", Unknown), GetOr(data, "type", Unknown), risk.value,
        GetOr(data, "country", Unknown), GetOr(data, "isocode", Unknown),
        Some(GetOr(data, "region", Unknown)), Some(GetOr(data, "city", Unknown)), Some(GetOr(data, "continent", Unknown)),
        GetOr(data, "provider", Unknown), GetOr(data, "organisation", Unknown), GetOr(data, "asn", Unknown),
        GetOr(data, "timezone", Unknown), CurrencyOf(data), data))
  }

  /** An entry without any field normalises to all defaults and risk 0. */
  lemma NormalizeEmpty()
    ensures Normalize(map[]) == Some(Reputation(Unknown, Unknown, 0, Unknown, Unknown, Some(Unknown), Some(Unknown),
      Some(Unknown), Unknown, Unknown, Unknown, Unknown, Currency(Unknown, Unknown, Unknown), map[]))
  {
  }

  /** A currency that is not a dict, a string say, is replaced as a whole. */
  lemma CurrencyNotDict(data: Dict, code: string)
    requires Get(data, "currency") == Str(code)
    ensures CurrencyOf(data) == Currency(Unknown, Unknown, Unknown)
  {
  }

  /** `str(v)` for the scalar values a provider error carries; other values
      are shown by their type name. */
  function PyStr(v: Value): string {
    match v
    case Null => "None"
    case Bool(b) => if b then "True" else "False"
    case Int(i) => IntToString(i)
    case Str(s) => s
    case _ => "<" + TypeName(v) + ">"
  }

  const UnexpectedPrefix: string := "Unexpected error: "

  /** Every failure inside `check_ip` is caught by its catch-all handler and
      re-raised with one prefix, the provider's own errors included. */
  function Unexpected(message: string): (r: string)
    ensures StartsWith(r, UnexpectedPrefix) && r[|UnexpectedPrefix|..] == message
  {
    var r := UnexpectedPrefix + message;
    assert r[..|UnexpectedPrefix|] == UnexpectedPrefix;
    r
  }

  function ProviderError(v: Value): string {
    Unexpected("ProxyCheck API error: " + PyStr(v))
  }

  function NoDataMessage(ip: string): string {
    Unexpected("No data returned for IP " + ip)
  }

  /** The entry a payload holds for an address: `data.get(ip, {})`. */
  function EntryFor(data: Dict, ip: string): Value {
    GetOr(data, ip, Obj(map[]))
  }

  /** The handling of a parsed payload in `check_ip`. A payload that is not a
      dict cannot answer `in` and `.get` as a dict does and always fails. */
  function CheckIpResult(data: Value, ip: string): (r: Result<Reputation, string>)
    ensures r.Ok? <==>
      (data.Obj? && "error" !in data.fields && EntryFor(data.fields, ip).Obj? &&
       EntryFor(data.fields, ip).fields != map[] && Normalize(EntryFor(data.fields, ip).fields).Some?)
    ensures r.Ok? ==> Some(r.value) == Normalize(EntryFor(data.fields, ip).fields)
    ensures data.Obj? && "error" in data.fields ==>
      r == Err(ProviderError(data.fields["error"]))
    ensures data.Obj? && "error" !in data.fields && !Truthy(EntryFor(data.fields, ip)) ==>
      r == Err(NoDataMessage(ip))
    ensures r.Err? ==> StartsWith(r.error, UnexpectedPrefix)
  {
    if !data.Obj? then Err(Unexpected("the payload is not a JSON object"))
    else if "error" in data.fields then Err(ProviderError(data.fields["error"]))
    else
      var entry := EntryFor(data.fields, ip);
      if !Truthy(entry) then Err(NoDataMessage(ip))
      else if !entry.Obj? then Err(Unexpected("'" + TypeName(entry) + "' object has no attribute 'get'"))
      else
        match Normalize(entry.fields)
        case Some(d) => Ok(d)
        case None => Err(Unexpected("int() of the risk failed"))
  }

  /** The outcome of one provider request: the parsed payload, or the
      message `check_ip` raises for a transport or HTTP status failure. */
  datatype Lookup = Fetched(payload: Value) | Failed(message: string)

  /** `check_ip` over the outcome of its request. */
  function CheckIp(l: Lookup, ip: string): (r: Result<Reputation, string>)
    ensures l.Fetched? ==> r == CheckIpResult(l.payload, ip)
    ensures l.Failed? ==> r == Err(l.message)
  {
    match l
    case Fetched(data) => CheckIpResult(data, ip)
    case Failed(m) => Err(m)
  }

  /** A payload holding a non-empty entry for the address answers with that
      entry normalised. */
  lemma CheckIpAnswers(ip: string, entry: Dict)
    requires ip != "error" && entry != map[] && ToInt(GetOr(entry, "risk", Int(0))).Some?
    ensures CheckIp(Fetched(Obj(map[ip := Obj(entry)])), ip) == Ok(Normalize(entry).value)
    ensures CheckIp(Fetched(Obj(map[ip := Obj(entry)])), ip).value.rawResponse == entry
  {
  }

  /** A payload keyed by another address has no data for this one. */
  lemma CheckIpOtherAddress(ip: string, other: string, entry: Dict)
    requires ip != other && other != "error"
    ensures CheckIp(Fetched(Obj(map[other := Obj(entry)])), ip) == Err(NoDataMessage(ip))
  {
  }

  /** One address's record in the result of a batch lookup. */
  datatype BatchRecord =
    | Found(reputation: Reputation)
      /** The fixed record of a failed address: the error text, proxy, type
          and country "unknown", and risk 50. */
    | Placeholder(error: string)

  function PlaceholderRisk(): int { 50 }

  /** The risk a batch record reports. */
  function BatchRisk(b: BatchRecord): (r: int)
    ensures b.Placeholder? ==> r == PlaceholderRisk()
    ensures b.Found? ==> r == b.reputation.risk
  {
    match b
    case Found(rep) => rep.risk
    case Placeholder(_) => PlaceholderRisk()
  }

  /** The outcomes of a batch's requests, in request order: what gathering
      the concurrent `check_ip` calls with `return_exceptions` yields. */
  function Outcomes(ips: seq<string>, lookups: seq<Lookup>): (r: seq<Result<Reputation, string>>)
    requires |lookups| == |ips|
    ensures |r| == |ips|
    ensures forall i :: 0 <= i < |ips| ==> r[i] == CheckIp(lookups[i], ips[i])
  {
    seq(|ips|, i requires 0 <= i < |ips| => CheckIp(lookups[i], ips[i]))
  }

  /** The record stored for one outcome: a failure becomes the placeholder. */
  function ToRecord(outcome: Result<Reputation, string>): (r: BatchRecord)
    ensures outcome.Ok? ==> r == Found(outcome.value)
    ensures outcome.Err? ==> r == Placeholder(outcome.error)
  {
    match outcome
    case Ok(d) => Found(d)
    case Err(e) => Placeholder(e)
  }

  function Records(outcomes: seq<Result<Reputation, string>>): (r: seq<BatchRecord>)
    ensures |r| == |outcomes|
    ensures forall i :: 0 <= i < |outcomes| ==> r[i] == ToRecord(outcomes[i])
  {
    seq(|outcomes|, i requires 0 <= i < |outcomes| => ToRecord(outcomes[i]))
  }

  /** The result map after the first `n` addresses, later addresses
      overwriting earlier ones. */
  function Aggregate(ips: seq<string>, entries: seq<BatchRecord>, n: nat): map<string, BatchRecord>
    requires n <= |ips| && n <= |entries|
  {
    if n == 0 then map[]
    else Aggregate(ips, entries, n - 1)[ips[n - 1] := entries[n - 1]]
  }

  /** `check_multiple_ips`: `lookups[i]` is the outcome of the request for
      `ips[i]`. */
  method CheckMultipleIps(ips: seq<string>, lookups: seq<Lookup>) returns (r: map<string, BatchRecord>)
    requires |lookups| == |ips|
    ensures r == Aggregate(ips, Records(Outcomes(ips, lookups)), |ips|)
    ensures r.Keys == set j | 0 <= j < |ips| :: ips[j]
  {
    var results := Outcomes(ips, lookups);
    r := Collect(ips, results);
    AggregateKeys(ips, Records(results), |ips|);
  }

  /** The loop over the gathered outcomes, storing each address's record. */
  method Collect(ips: seq<string>, results: seq<Result<Reputation, string>>) returns (r: map<string, BatchRecord>)
    requires |results| == |ips|
    ensures r == Aggregate(ips, Records(results), |ips|)
  {
    ghost var records := Records(results);
    r := map[];
    var i := 0;
    while i < |ips|
      invariant 0 <= i <= |ips|
      invariant r == Aggregate(ips, records, i)
    {
      assert ToRecord(results[i]) == records[i];
      r := r[ips[i] := ToRecord(results[i])];
      i := i + 1;
    }
  }

  /** The result has one key per distinct input address. */
  lemma {:induction false} AggregateKeys(ips: seq<string>, entries: seq<BatchRecord>, n: nat)
    requires n <= |ips| && n <= |entries|
    ensures Aggregate(ips, entries, n).Keys == set j | 0 <= j < n :: ips[j]
  {
    if n > 0 {
      AggregateKeys(ips, entries, n - 1);
      assert (set j | 0 <= j < n :: ips[j]) == (set j | 0 <= j < n - 1 :: ips[j]) + {ips[n - 1]};
    }
  }

  /** Each address maps to the record of its last occurrence in the batch. */
  lemma {:induction false} AggregateLastWins(ips: seq<string>, entries: seq<BatchRecord>, n: nat, j: nat)
    requires n <= |ips| && n <= |entries| && j < n
    requires forall k :: j < k < n ==> ips[k] != ips[j]
    ensures ips[j] in Aggregate(ips, entries, n)
    ensures Aggregate(ips, entries, n)[ips[j]] == entries[j]
  {
    if j < n - 1 {
      AggregateLastWins(ips, entries, n - 1, j);
    }
  }

  /** Changing the record at one position affects no other address: one
      failure leaves the others' records alone. */
  lemma {:induction false} AggregateIsolated(ips: seq<string>, entries: seq<BatchRecord>, n: nat, j: nat, b: BatchRecord, ip: string)
    requires n <= |ips| && n <= |entries| && j < |entries| && j < |ips|
    requires ip != ips[j]
    ensures ip in Aggregate(ips, entries, n) <==> ip in Aggregate(ips, entries[j := b], n)
    ensures ip in Aggregate(ips, entries, n) ==>
      Aggregate(ips, entries, n)[ip] == Aggregate(ips, entries[j := b], n)[ip]
  {
    if n > 0 {
      AggregateIsolated(ips, entries, n - 1, j, b, ip);
    }
  }

  /** A failed lookup whose address does not occur again later in the batch
      is reported by the placeholder, with risk 50. */
  lemma BatchFailureIsPlaceholder(ips: seq<string>, lookups: seq<Lookup>, j: nat)
    requires |lookups| == |ips| && j < |ips|
    requires forall k :: j < k < |ips| ==> ips[k] != ips[j]
    requires CheckIp(lookups[j], ips[j]).Err?
    ensures ips[j] in Aggregate(ips, Records(Outcomes(ips, lookups)), |ips|)
    ensures Aggregate(ips, Records(Outcomes(ips, lookups)), |ips|)[ips[j]] == Placeholder(CheckIp(lookups[j], ips[j]).error)
    ensures BatchRisk(Aggregate(ips, Records(Outcomes(ips, lookups)), |ips|)[ips[j]]) == 50
  {
    AggregateLastWins(ips, Records(Outcomes(ips, lookups)), |ips|, j);
  }
}
