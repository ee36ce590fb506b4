# idrock-security-service: a Dafny model of the fraud-risk pipeline

This project models the rule-based core of the idrock security service. The service scores user actions (login, checkout, sensitive operations) for fraud risk and keeps durable records for audit and analytics. The model covers:

- **Risk engine** (`risk_engine.dfy`). An IP-reputation confidence score starts at 100 and is adjusted by provider risk, proxy flag, connection type and high-risk country, then clamped to [0, 100]. Two configured thresholds turn it into ALLOW, REVIEW or DENY. The engine also builds the single `ip_reputation` risk factor and the recommendations for each verdict. On any failure it returns the fixed fallback (score 50, REVIEW, `system_error`), and it writes the assessment and audit rows in the order the service commits them.
- **Reputation adapter** (`proxycheck.dfy`). It covers the deterministic mock record, the normalisation of a provider entry with its defaults, the handling of a parsed lookup payload, and the aggregation of a batch lookup with per-address placeholders.
- **Validators**:
  - impossible-travel classification with mutable speed thresholds (`travel_detection.dfy`);
  - hardware plausibility, including the `WxH` resolution parser and the User-Agent platform guess (`hardware_validation.dfy`);
  - User-Agent and browser-environment checks over a mutable list of automation patterns (`browser_validation.dfy`).
- **Access history and pattern analyser** (`device_access_service.dfy`). The access table is append-only and keyed by (device, timestamp). This part covers recording an access, the latest access of a user, the hourly, daily, country, ASN and IP histograms, ASN change, the temporal-anomaly score and the retention purge.
- **Device registry** (`device_service.dfy`, `device.dfy`). A user has at most one device per fingerprint. The registry covers create-or-get, trust updates done in place, cascade delete, the trusted-device count, the "new device" test and the per-user listing, newest first.
- **Read side**:
  - history filtering, ordering and pagination (`history_service.dfy`);
  - the `/stats` aggregation (`stats.dfy`);
  - the stored assessment and audit records (`risk_assessment.dfy`, `audit_log.dfy`);
  - the request and response field bounds of the schemas, including the IPv4/IPv6 syntax check (`schemas_*.dfy`, `ip_address.dfy`).

The shared SQL session is a `Store.Database` class that holds the four tables as sequences, together with the uniqueness invariants the schema declares. Services that change the store are methods with `modifies` clauses. Their new state is stated against specification functions, and the specification functions carry the lemmas. Class-level mutable configuration is one instance of a Dafny class:

- the automation patterns;
- the hardware minimums;
- the travel speed thresholds.

Python dicts coming from clients or from the provider are `Values.Dict`, a map from strings to a JSON-like `Value`. Timestamps are integers in seconds since the epoch (UTC), and Python floats are `real`.

Three behaviours of the code are worth stating up front:

- The engine scores the IP reputation only. The device, travel, hardware, browser and temporal services are not called by `calculate_risk_score`, and the single factor always has weight 1.0.
- The mock record treats every address that starts with `10.`, `192.168.` or `172.` as private (risk 1). This includes all of `172.*` and excludes loopback `127.*`, which gets the public record (risk 5).
- The REVIEW recommendations test the proxy flag case-sensitively (`"yes"`), while the score lower-cases it.

## Model

| member | source | states |
|---|---|---|
| `RiskEngine.AnalyzeIpReputation` | idrock-security-service/app/services/risk_engine.py:116-137 | without an API key the mock record is used; with one, the live record when the lookup succeeds and the mock when it raises |
| `RiskEngine.AnalysisIsLiveOrMock` | idrock-security-service/app/services/risk_engine.py:116-137 | the analysis is either the mock record for the address or a successful live lookup |
| `RiskEngine.Clamp` | idrock-security-service/app/services/risk_engine.py:175 | the result lies in [0, 100], equals an input already in range, and is 0 below and 100 above |
| `RiskEngine.ConfidenceScore` | idrock-security-service/app/services/risk_engine.py:139-175 | the score exists exactly when proxy, type and country are strings (otherwise the AttributeError of the first that is not), and then lies in [0, 100] |
| `RiskEngine.CalculateIpBasedScore` | idrock-security-service/app/services/risk_engine.py:139-175 | adjusting the base score step by step gives exactly the clamped formula 100 − risk − 30·proxy − type adjustment − 15·high-risk country |
| `RiskEngine.MockScoresFull` | idrock-security-service/app/services/risk_engine.py:149-175 | both mock records (private and public) score 100 |
| `RiskEngine.ProxyHostingScoresZero` | idrock-security-service/app/services/risk_engine.py:149-175 | risk 80 with proxy "yes" on a hosting connection scores 0 |
| `RiskEngine.ScoreAntitoneInRisk` | idrock-security-service/app/services/risk_engine.py:149-153 | raising the provider risk never raises the score |
| `RiskEngine.ProxyNeverHelps` | idrock-security-service/app/services/risk_engine.py:155-157 | flagging the address as a proxy never raises the score |
| `RiskEngine.ScoreIgnoresCase` | idrock-security-service/app/services/risk_engine.py:155-172 | any two records with the same provider risk whose proxy flag and type agree after lower-casing and whose country agrees after upper-casing get the same score |
| `RiskEngine.MixedCaseHostingProxy` | idrock-security-service/app/services/risk_engine.py:155-172 | the flag "YES", the type "Hosting" and the country "cn" cost 30, 20 and 15 points like their canonical spellings |
| `RiskEngine.DetermineRiskLevel` | idrock-security-service/app/services/risk_engine.py:177-192 | ALLOW iff score ≥ allow threshold; REVIEW iff review threshold ≤ score < allow threshold; DENY iff below both |
| `RiskEngine.LevelMonotone` | idrock-security-service/app/services/risk_engine.py:187-192 | with review ≤ allow threshold, a higher score never gives a stricter verdict |
| `RiskEngine.DefaultLevels` | idrock-security-service/app/core/config.py:45-46 | with the configured thresholds 70 and 30, scores from 70 allow, 30 to 69 review, below 30 deny |
| `RiskEngine.FormatIpDetails` | idrock-security-service/app/services/risk_engine.py:217-238 | a proxy flag exactly "yes" gives the proxy message; otherwise the hosting message iff the lower-cased type is hosting or datacenter; a non-string type raises |
| `RiskEngine.CreateRiskFactors` | idrock-security-service/app/services/risk_engine.py:194-215 | exactly one `ip_reputation` factor with the confidence score, weight 1.0, the details and the analysis |
| `RiskEngine.ScoredIsDescribed` | idrock-security-service/app/services/risk_engine.py:194-238 | whenever the score is computed the factor list is built, and every factor keeps the schema's bounds |
| `RiskEngine.UpperCaseProxyNotReported` | idrock-security-service/app/services/risk_engine.py:156-233 | proxy "YES" costs 30 points like "yes" yet is not reported as a proxy in the details |
| `RiskEngine.GenerateRecommendations` | idrock-security-service/app/services/risk_engine.py:240-303 | the actions, in order, are one for ALLOW, two for REVIEW when proxy is exactly "yes" else one, three for DENY; every priority is the verdict's; the ALLOW and DENY messages name the action |
| `RiskEngine.ReviewRecommendations` | idrock-security-service/app/services/risk_engine.py:262-283 | REVIEW gives `require_additional_verification` then `enable_enhanced_monitoring` with a proxy, else `step_up_authentication`, all medium |
| `RiskEngine.DenyRecommendations` | idrock-security-service/app/services/risk_engine.py:284-301 | DENY gives `block_transaction`, `alert_security_team`, `log_for_investigation`, all high, the first naming the action |
| `RiskEngine.FallbackResponse` | idrock-security-service/app/services/risk_engine.py:358-394 | score 50, REVIEW, one `system_error` factor (score 50, weight 1.0), one medium `manual_review_required`, the same request id, and a response the schema accepts |
| `RiskEngine.SerializeSessionData` | idrock-security-service/app/services/risk_engine.py:340-356 | the session as a dict with its three keys, the timestamp as text and the fingerprint or null |
| `RiskEngine.AssessmentRecord` | idrock-security-service/app/services/risk_engine.py:305-338 | the stored row copies the request's and the response's fields, the serialized session and the analysis |
| `RiskEngine.StoredAssessmentReadsBack` | idrock-security-service/app/models/risk_assessment.py:45-60 | a row the engine stores converts through `to_dict` with its request id, its creation time and the session's fingerprint |
| `RiskEngine.CalculateRiskScore` | idrock-security-service/app/services/risk_engine.py:26-114 | on a computable score: the response is the scored outcome, one assessment row is appended and the request and result logs are written; otherwise the fallback is returned, no row is stored and the request and error logs are written; devices and accesses are untouched and the store stays valid |
| `RiskEngine.RecordFailure` | idrock-security-service/app/services/risk_engine.py:101-114 | the error is logged with the request id, user and address after the request log, and the fallback is returned |
| `RiskEngine.RecordScored` | idrock-security-service/app/services/risk_engine.py:60-99 | the scored response is stored as one new row and its result logged, keeping request ids unique |
| `RiskEngine.ScoredResponse` | idrock-security-service/app/services/risk_engine.py:60-85 | the response carries the score, its level, the one IP factor, the recommendations for the level and the metadata, and satisfies the schema |
| `RiskEngine.MockAssessmentAllows` | idrock-security-service/app/services/risk_engine.py:126-132 | without an API key every assessment scores 100 and allows under any allow threshold up to 100 |
| `Common.ActionNameInjective` | idrock-security-service/app/schemas/common.py:14-18 | the three action names are distinct |
| `Common.ParseAction` | idrock-security-service/app/schemas/common.py:14-18 | a string parses to the action whose value it is, and only to that one |
| `AuditLogs.LogAssessmentRequest` | idrock-security-service/app/models/audit_log.py:38-53 | type `assessment_request`, category security, INFO, the ids and address, details {action_type, request_source "api"} |
| `AuditLogs.LogAssessmentResult` | idrock-security-service/app/models/audit_log.py:55-70 | WARN iff the level is DENY, otherwise INFO; details hold the level and score unchanged |
| `AuditLogs.LogError` | idrock-security-service/app/models/audit_log.py:72-84 | category error, severity ERROR, the message copied, and the text "Error in {type}: {message}" |
| `AuditLogs.ResultMessageScore` | idrock-security-service/app/models/audit_log.py:65 | the score printed in the result message reads back as the score |
| `Assessments.ToDict` | idrock-security-service/app/models/risk_assessment.py:45-60 | assessment_id is the request id; the timestamp, IP address, processing time and transaction amount are copied unchanged (so the timestamp is None iff created_at is); the fingerprint comes from non-empty session data and is None otherwise; session data that is not a dict raises |
| `Assessments.ToDictTotalOnEngineRows` | idrock-security-service/app/models/risk_assessment.py:56 | dict or absent session data always converts; absent session data gives no fingerprint |
| `Store.StoreAssessmentValid` | idrock-security-service/app/models/risk_assessment.py:15 | appending a row with a fresh request id keeps request ids unique |
| `Store.FindById` | idrock-security-service/app/services/device_service.py:109-111 | the device found has the id, and none is found exactly when no stored device has it |
| `Store.FindByPair` | idrock-security-service/app/services/device_service.py:41-44 | the device found has the user and fingerprint, and none is found exactly when no stored device has the pair |
| `Store.FindAccess` | idrock-security-service/app/models/device_access.py:12-14 | the row found has the (device_id, timestamp) key, and none is found exactly when no row has it |
| `Store.Database.constructor` | idrock-security-service/app/core/database.py:1-34 | the four tables start empty and every constraint holds |
| `Store.AppendDeviceValid` | idrock-security-service/app/models/device.py:30-36 | a device with a fresh id and an unused (user, fingerprint) pair keeps both uniqueness constraints |
| `Store.RemoveDeviceValid` | idrock-security-service/app/models/device.py:30-36 | removing a device keeps the uniqueness constraints |
| `Devices.Device.constructor` | idrock-security-service/app/models/device.py:13-24 | a new device is untrusted, has no update time, and keeps its id, owner and fingerprint |
| `Devices.Device.MarkTrusted` | idrock-security-service/app/models/device.py:53-56 | the device becomes trusted and its update time is set |
| `Devices.Device.RevokeTrust` | idrock-security-service/app/models/device.py:58-61 | the device becomes untrusted and its update time is set |
| `Devices.Device.SetTrusted` | idrock-security-service/app/models/device.py:20-24 | the trust flag takes the value; the update time changes only when the flag does |
| `Devices.Device.ToDict` | idrock-security-service/app/models/device.py:41-51 | the fields are copied and access_count is the number of the device's accesses, 0 exactly when it has none |
| `DeviceAccesses.Latitude` | idrock-security-service/app/models/device_access.py:52-55 | None without location data, otherwise the stored lat |
| `DeviceAccesses.Longitude` | idrock-security-service/app/models/device_access.py:57-60 | None without location data, otherwise the stored lng |
| `DeviceAccesses.Country` | idrock-security-service/app/models/device_access.py:62-65 | None without location data, otherwise the stored country |
| `DeviceAccesses.City` | idrock-security-service/app/models/device_access.py:67-70 | None without location data, otherwise the stored city |
| `DeviceAccesses.Coordinates` | idrock-security-service/app/models/device_access.py:72-84 | a pair exactly when `has_location` holds, made of the stored lat and lng |
| `DeviceAccesses.ToDict` | idrock-security-service/app/models/device_access.py:39-50 | every field is copied unchanged |
| `DeviceAccesses.CountFor` | idrock-security-service/app/models/device.py:50 | the number of a device's rows never exceeds the table's size |
| `DeviceAccesses.RowsFor` | idrock-security-service/app/models/device.py:27 | the rows of a device: each stored row of that device, and no other |
| `DeviceAccesses.CountIsRows` | idrock-security-service/app/models/device.py:50 | the access count is the number of the device's rows |
| `DeviceAccesses.NoRowsIffNoneFor` | idrock-security-service/app/models/device.py:50 | a device has no rows exactly when no access names it |
| `DeviceRegistry.Masked` | idrock-security-service/app/services/device_service.py:44 | the first 20 characters of the fingerprint (all of a shorter one) followed by "..." |
| `DeviceRegistry.AgeDays` | idrock-security-service/app/services/device_service.py:77 | 0 without an update time, otherwise the whole days between creation and the update |
| `DeviceRegistry.DeviceCreatedLog` | idrock-security-service/app/services/device_service.py:36-47 | type `device_created`, security, INFO, the user, and details with the id, the masked fingerprint and trusted false |
| `DeviceRegistry.DeviceAccessedLog` | idrock-security-service/app/services/device_service.py:67-79 | type `device_accessed`, security, INFO, and details with the id, masked fingerprint, trust flag and age in days |
| `DeviceRegistry.TrustUpdatedLog` | idrock-security-service/app/services/device_service.py:118-131 | WARN when trust is revoked and INFO when granted; the old and new flags and the admin are in the details |
| `DeviceRegistry.DeviceDeletedLog` | idrock-security-service/app/services/device_service.py:145-157 | type `device_deleted`, security, WARN, with the trust flag and the access count the device had |
| `DeviceRegistry.CreateOrGetDevice` | idrock-security-service/app/services/device_service.py:12-86 | an unused pair gets one new untrusted device with the next id and a creation log; a used pair returns the stored device and adds no device, only an access log; afterwards the pair finds exactly that device and the store stays valid |
| `DeviceRegistry.PairAfterAppend` | idrock-security-service/app/services/device_service.py:27-33 | after the insert the lookup by the pair finds the new device |
| `DeviceRegistry.PairFound` | idrock-security-service/app/models/device.py:33 | in a valid registry at most one device has a given (user, fingerprint) pair |
| `DeviceRegistry.RegisterTwice` | idrock-security-service/app/services/device_service.py:25-83 | registering a pair twice yields the same device, the second time as not new |
| `DeviceRegistry.UpdateTrustStatus` | idrock-security-service/app/services/device_service.py:106-135 | a missing id returns None and writes nothing; otherwise only that device's trust flag (and, if it changed, its update time) changes and the change is logged |
| `DeviceRegistry.IndexOfId` | idrock-security-service/app/services/device_service.py:140 | the position of the device with the id, none exactly when no device has it |
| `DeviceRegistry.WithoutDevice` | idrock-security-service/app/models/device.py:27 | the cascade keeps exactly the rows of other devices, and removes as many rows as the device had |
| `DeviceRegistry.WithoutDeviceKeysUnique` | idrock-security-service/app/models/device_access.py:12-14 | the rows left by the cascade still have distinct (device_id, timestamp) keys |
| `DeviceRegistry.DeleteDevice` | idrock-security-service/app/services/device_service.py:137-164 | false and no change for a missing id; otherwise true, the device and all its accesses are removed, every other device stays, and the deletion is logged with its access count |
| `DeviceRegistry.IdUnique` | idrock-security-service/app/models/device.py:13 | in a valid registry the lookup by id finds the device at any position that has it |
| `DeviceRegistry.RemoveAtMembers` | idrock-security-service/app/services/device_service.py:161 | removing one device leaves exactly the devices with another id |
| `DeviceRegistry.UserDevices` | idrock-security-service/app/services/device_service.py:96 | the stored devices of the user, and only those |
| `DeviceRegistry.TrustedOf` | idrock-security-service/app/services/device_service.py:169-171 | exactly the stored devices of the user whose trust flag is set |
| `DeviceRegistry.CountTrusted` | idrock-security-service/app/services/device_service.py:166-172 | the number of the user's trusted devices, at most the user's device count, and 0 exactly when none of the user's devices is trusted |
| `DeviceRegistry.CountTrustedDevices` | idrock-security-service/app/services/device_service.py:166-172 | the number of the user's trusted devices in the store, 0 exactly when the user has no trusted device |
| `DeviceRegistry.IsDeviceNew` | idrock-security-service/app/services/device_service.py:174-178 | true exactly when no device has the (user, fingerprint) pair |
| `DeviceRegistry.GetDevicesByUser` | idrock-security-service/app/services/device_service.py:93-96 | exactly the user's devices, as a permutation of them, newest creation time first |
| `AccessHistory.HourOf` | idrock-security-service/app/services/device_access_service.py:148-149 | the hour of a timestamp is one of the 24 bucket indices |
| `AccessHistory.WeekdayOf` | idrock-security-service/app/services/device_access_service.py:152-153 | the weekday (Monday = 0) of a timestamp is one of the 7 bucket indices |
| `AccessHistory.AccessRecordedLog` | idrock-security-service/app/services/device_access_service.py:50-66 | the audit row is an INFO security event for the device's owner naming the address, the device id, 'Unknown' without location data, and whether risk factors were given and non-empty |
| `AccessHistory.AppendAccessValid` | idrock-security-service/app/services/device_access_service.py:25-36 | appending a row whose (device id, timestamp) key is not yet present keeps the keys unique |
| `AccessHistory.FindAfterAppend` | idrock-security-service/app/services/device_access_service.py:40-44 | after the append, the lookup by (device id, timestamp) returns the appended row |
| `AccessHistory.RecordAccess` | idrock-security-service/app/services/device_access_service.py:14-69 | one row with exactly the given fields is appended and read back by its key; a row for the same device at the same instant is refused with nothing stored; the audit row is written only when the device exists; nothing else changes |
| `AccessHistory.Latest` | idrock-security-service/app/services/device_access_service.py:79-84 | the result is one of the user's accesses with a timestamp no other access of the user exceeds, and None exactly when the user has no access |
| `AccessHistory.GetLatestUserAccess` | idrock-security-service/app/services/device_access_service.py:79-84 | the most recent access across all of the user's devices, None exactly when there is none |
| `AccessHistory.DetectAsnChange` | idrock-security-service/app/services/device_access_service.py:183-190 | true exactly when the latest access has a non-empty ASN different from the current one |
| `AccessHistory.Window` | idrock-security-service/app/services/device_access_service.py:130-137 | exactly the user's accesses at or after the cutoff are selected |
| `AccessHistory.CountHour` | idrock-security-service/app/services/device_access_service.py:146-149 | the number of accesses in an hour is at most the number of accesses |
| `AccessHistory.CountDay` | idrock-security-service/app/services/device_access_service.py:146-153 | the number of accesses on a weekday is at most the number of accesses |
| `AccessHistory.HourBuckets` | idrock-security-service/app/services/device_access_service.py:140-149 | there are always 24 hour buckets |
| `AccessHistory.DayBuckets` | idrock-security-service/app/services/device_access_service.py:141-153 | there are always 7 weekday buckets |
| `AccessHistory.HourBucketsCount` | idrock-security-service/app/services/device_access_service.py:140-169 | each hour bucket counts the accesses in that hour and the buckets sum to the total |
| `AccessHistory.DayBucketsCount` | idrock-security-service/app/services/device_access_service.py:141-169 | each weekday bucket counts the accesses on that weekday and the buckets sum to the total |
| `AccessHistory.Keys` | idrock-security-service/app/services/device_access_service.py:155-165 | an access contributes at most one key to a counting dict |
| `AccessHistory.TallyStep` | idrock-security-service/app/services/device_access_service.py:155-165 | one more access bumps its key's count when it has a key and leaves the dict alone otherwise |
| `AccessHistory.AddAccess` | idrock-security-service/app/services/device_access_service.py:146-165 | one loop iteration keeps 24 hour and 7 weekday buckets |
| `AccessHistory.CountsOf` | idrock-security-service/app/services/device_access_service.py:140-165 | the loop's counters always hold 24 hour and 7 weekday buckets |
| `AccessHistory.CountsOfParts` | idrock-security-service/app/services/device_access_service.py:140-165 | the loop's counters are the hour and weekday buckets and the counting dicts of the country, ASN and IP keys |
| `AccessHistory.CountsOfBuckets` | idrock-security-service/app/services/device_access_service.py:140-153 | the loop's hour and weekday counters are the bucket histograms |
| `AccessHistory.CountsOfTallies` | idrock-security-service/app/services/device_access_service.py:155-165 | the loop's country, ASN and IP counters are the counting dicts of the keys seen |
| `AccessHistory.ArgMax` | idrock-security-service/app/services/device_access_service.py:175-176 | the most common bucket has the maximal count and every lower bucket has a strictly smaller count |
| `AccessHistory.GetAccessPatternData` | idrock-security-service/app/services/device_access_service.py:120-181 | the pattern dict is that of the user's accesses within the last `days_back` days |
| `AccessHistory.Analyse` | idrock-security-service/app/services/device_access_service.py:140-181 | the dict built after the loop is the pattern of the selected accesses |
| `AccessHistory.CountAll` | idrock-security-service/app/services/device_access_service.py:140-165 | the counting loop leaves exactly the counters of all the selected accesses |
| `AccessHistory.CountAccess` | idrock-security-service/app/services/device_access_service.py:147-165 | one access adds one to its hour and weekday buckets, to its country and ASN counters when present, and to its IP counter, exactly one loop step of the counters |
| `AccessHistory.PatternOfMeaning` | idrock-security-service/app/services/device_access_service.py:140-179 | the buckets count accesses per hour and weekday and each sums to the total; country is counted only with a non-empty country, ASN only when non-empty, IP always; each unique count is the number of distinct keys; the most common hour and day are the lowest buckets with the maximal count |
| `AccessHistory.CountryKeysFromLocations` | idrock-security-service/app/services/device_access_service.py:156-158 | a country is counted exactly when some selected access has location data naming it |
| `AccessHistory.Clamp01` | idrock-security-service/app/services/device_access_service.py:227 | the result lies in [0, 1] and equals an input already in range |
| `AccessHistory.AnomalyScore` | idrock-security-service/app/services/device_access_service.py:202-227 | fewer than five accesses give exactly 0.0; every score lies in [0, 1] |
| `AccessHistory.UnseenTimeIsMaximal` | idrock-security-service/app/services/device_access_service.py:205-227 | with enough history, an hour and weekday never seen give the maximal score 1.0 |
| `AccessHistory.MoreHourAccessesLowerScore` | idrock-security-service/app/services/device_access_service.py:205-227 | more accesses in the current hour never raise the score |
| `AccessHistory.GetTemporalAnomalyScore` | idrock-security-service/app/services/device_access_service.py:193-227 | the score is the clamped formula 0.7·(1 − 24h/N) + 0.3·(1 − 7d/N) over the last 30 days, 0.0 under five accesses, and lies in [0, 1] |
| `AccessHistory.Retained` | idrock-security-service/app/services/device_access_service.py:234-236 | an access is kept exactly when its timestamp is at or after the cutoff |
| `AccessHistory.CountOlder` | idrock-security-service/app/services/device_access_service.py:234-236 | the number of rows older than the cutoff is at most the number of rows |
| `AccessHistory.RetainedSize` | idrock-security-service/app/services/device_access_service.py:230-255 | the kept rows and the deleted count add up to the rows before the purge |
| `AccessHistory.RetainedKeysUnique` | idrock-security-service/app/services/device_access_service.py:234-236 | the purge keeps the (device id, timestamp) keys unique |
| `AccessHistory.CleanupLog` | idrock-security-service/app/services/device_access_service.py:238-253 | the audit row is an INFO maintenance event carrying the deleted count and the days kept |
| `AccessHistory.CleanupOldAccesses` | idrock-security-service/app/services/device_access_service.py:230-255 | exactly the rows older than the cutoff are deleted and the rest kept in order; the deleted count is returned and audited; nothing else changes |
| `BrowserValidation.FirstLine` | idrock-security-service/app/services/browser_validation.py:42 | the text the negative lookahead of `bot(?!.*mobile)` scans holds no line break and is no longer than the rest of the User-Agent |
| `BrowserValidation.FilterAppend` | idrock-security-service/app/services/browser_validation.py:91-93 | the patterns matching a concatenated list are those matching each part, in order |
| `BrowserValidation.MatchingIsFilter` | idrock-security-service/app/services/browser_validation.py:91-93 | collecting matches with the loop keeps the patterns in list order |
| `BrowserValidation.MatchingIff` | idrock-security-service/app/services/browser_validation.py:91-93 | a pattern is collected exactly when it is listed and matches |
| `BrowserValidation.CheckSuspiciousPatterns` | idrock-security-service/app/services/browser_validation.py:298-333 | `very_short_user_agent` exactly under 20 characters, `missing_mozilla` exactly without "Mozilla", `suspicious_version_numbers` exactly with four digits in a row; one factor per pattern |
| `BrowserValidation.LeadingDigits` | idrock-security-service/app/services/browser_validation.py:261 | the run of digits a version starts with is a prefix of the text, made of digits, and ends at the first non-digit |
| `BrowserValidation.VersionAt` | idrock-security-service/app/services/browser_validation.py:261-263 | a version captured by `(\d+\.\d+)` is a prefix of the text holding a dot that neither starts nor ends it |
| `BrowserValidation.FindVersion` | idrock-security-service/app/services/browser_validation.py:261-281 | a version found is the one right after some occurrence of the marker |
| `BrowserValidation.ExtractBrowserInfo` | idrock-security-service/app/services/browser_validation.py:249-295 | Chrome exactly when named; Firefox exactly when named without Chrome; Safari exactly when named without Chrome or Firefox; Edge exactly when named without the other three; unknown, with an unknown version, exactly when none of the four is named; otherwise the version is the first `\d+\.\d+` after the browser's marker (`Version/` for Safari), or unknown; Windows exactly when named; macOS exactly when Macintosh is named without Windows; Linux, Android and iOS (iPhone or iPad) likewise, each exactly when named without an earlier platform; the platform is unknown exactly when none of the platform names occurs |
| `BrowserValidation.FindingFactors` | idrock-security-service/app/services/browser_validation.py:158-221 | the reported factors are the findings' factors, one for one and in order |
| `BrowserValidation.PropertyFindingsIff` | idrock-security-service/app/services/browser_validation.py:351-359 | an automation-property finding is reported exactly for a listed property the navigator data holds as non-null |
| `BrowserValidation.BrowserValidator.constructor` | idrock-security-service/app/services/browser_validation.py:9-50 | the pattern list starts as the default list, in order |
| `BrowserValidation.BrowserValidator.ValidateUserAgent` | idrock-security-service/app/services/browser_validation.py:53-118 | the loop over the current pattern list gives exactly the User-Agent verdict for that list |
| `BrowserValidation.BrowserValidator.ValidateNavigatorProperties` | idrock-security-service/app/services/browser_validation.py:336-364 | the webdriver check and the loop over the automation properties give the navigator findings, in order |
| `BrowserValidation.BrowserValidator.CheckHeadlessIndicators` | idrock-security-service/app/services/browser_validation.py:161-204 | the plugin, WebGL, Canvas and colour-depth checks give their findings in source order |
| `BrowserValidation.BrowserValidator.CheckPlugins` | idrock-security-service/app/services/browser_validation.py:161-177 | an absent `has_plugins` counts as true and an absent `plugin_count` as zero |
| `BrowserValidation.BrowserValidator.CheckDisplay` | idrock-security-service/app/services/browser_validation.py:179-204 | the WebGL, Canvas and colour-depth findings follow the earlier ones |
| `BrowserValidation.BrowserValidator.ValidateBrowserEnvironment` | idrock-security-service/app/services/browser_validation.py:121-246 | the checks run in order give exactly the environment verdict, including the error a null `languages` raises |
| `BrowserValidation.BrowserValidator.GetBrowserRiskFactors` | idrock-security-service/app/services/browser_validation.py:367-399 | fails exactly when the environment check raises; otherwise the overall level is REVIEW exactly when either check reviews, and the factors are the User-Agent factors then the environment factors |
| `BrowserValidation.BrowserValidator.AddCustomAutomationPattern` | idrock-security-service/app/services/browser_validation.py:402-411 | added exactly when the pattern compiles and is not yet listed, and then appended; otherwise the list is unchanged |
| `BrowserValidation.BrowserValidator.RemoveAutomationPattern` | idrock-security-service/app/services/browser_validation.py:414-420 | removed exactly when listed, and the list loses its first occurrence |
| `BrowserValidation.RemoveFirstAt` | idrock-security-service/app/services/browser_validation.py:417 | removal cuts the list at the first occurrence |
| `BrowserValidation.EmptyUserAgent` | idrock-security-service/app/services/browser_validation.py:70-83 | an empty User-Agent is not legitimate, is reviewed, and reports only `missing_user_agent` as a high factor |
| `BrowserValidation.DetectedOrder` | idrock-security-service/app/services/browser_validation.py:90-98 | the detected patterns are the listed patterns matching the lowered User-Agent, in list order, then the suspicious-pattern names |
| `BrowserValidation.PatternDetectedIff` | idrock-security-service/app/services/browser_validation.py:90-93 | a listed pattern is detected exactly when it matches the lowered User-Agent |
| `BrowserValidation.LegitimacyRules` | idrock-security-service/app/services/browser_validation.py:100-110 | legitimate exactly when nothing is detected, REVIEW exactly when not legitimate, and the high `automation_detected` factor present exactly when something is detected |
| `BrowserValidation.ShortOrForeignIsReviewed` | idrock-security-service/app/services/browser_validation.py:304-319 | a User-Agent under 20 characters or without "Mozilla" is never legitimate, whatever the list |
| `BrowserValidation.VerdictOfDetected` | idrock-security-service/app/services/browser_validation.py:85-102 | the detected list is the matches then the suspicious patterns, and decides legitimacy and the level |
| `BrowserValidation.CurlIsDetected` | idrock-security-service/app/services/browser_validation.py:85-118 | "curl/7.68.0" under the default list detects `curl`, `very_short_user_agent` and `missing_mozilla` and is not legitimate |
| `BrowserValidation.ChromeBuildNumberIsFlagged` | idrock-security-service/app/services/browser_validation.py:322-328 | any User-Agent naming `Chrome/91.0.4472.124` is flagged for its build number and reviewed |
| `BrowserValidation.FourDigitsFlagged` | idrock-security-service/app/services/browser_validation.py:96-102 | any run of four digits flags a User-Agent and makes it reviewed |
| `BrowserValidation.NoEnvironmentIsReviewed` | idrock-security-service/app/services/browser_validation.py:141-156 | missing or empty environment data is never a real browser, is reviewed, and gives one medium factor |
| `BrowserValidation.HighFindingIsReviewed` | idrock-security-service/app/services/browser_validation.py:224-228 | a single high factor rules out a real browser |
| `BrowserValidation.WebDriverIsReviewed` | idrock-security-service/app/services/browser_validation.py:336-348 | webdriver set to true rules out a real browser |
| `BrowserValidation.AutomationPropertyIsReviewed` | idrock-security-service/app/services/browser_validation.py:350-359 | any automation property present and non-null rules out a real browser |
| `BrowserValidation.NullLanguagesRaise` | idrock-security-service/app/services/browser_validation.py:207-242 | a `languages` entry set to null makes the check raise |
| `BrowserValidation.AddThenRemove` | idrock-security-service/app/services/browser_validation.py:402-420 | removing a pattern just added restores the list |
| `BrowserValidation.RemoveFirstCounts` | idrock-security-service/app/services/browser_validation.py:414-420 | removal takes out exactly one occurrence when there is one and changes nothing otherwise |
| `HardwareValidation.PlatformFactors` | idrock-security-service/app/services/hardware_validation.py:180-189 | an unlisted platform adds only a low factor |
| `HardwareValidation.TimezoneFactors` | idrock-security-service/app/services/hardware_validation.py:191-209 | a malformed or out-of-range timezone offset adds only a low factor |
| `HardwareValidation.LanguageFactors` | idrock-security-service/app/services/hardware_validation.py:211-218 | raises exactly for a truthy language without a length; otherwise adds only low factors |
| `HardwareValidation.AdditionalFactors` | idrock-security-service/app/services/hardware_validation.py:172-218 | the additional checks raise exactly on a language without a length and otherwise add only low factors |
| `HardwareValidation.HardwareValidator.constructor` | idrock-security-service/app/services/hardware_validation.py:7-9 | the minimums start at 2 cores and 4 GB |
| `HardwareValidation.HardwareValidator.ValidateHardwareSpecs` | idrock-security-service/app/services/hardware_validation.py:12-146 | collecting issues and factors as the checks run gives exactly the hardware verdict for the current minimums |
| `HardwareValidation.HardwareValidator.CheckCore` | idrock-security-service/app/services/hardware_validation.py:57-117 | the CPU, RAM and resolution checks give their issues and factors in order |
| `HardwareValidation.HardwareValidator.CheckCpu` | idrock-security-service/app/services/hardware_validation.py:57-78 | a missing core count is one medium finding; a non-integer or a count below the minimum one high finding |
| `HardwareValidation.HardwareValidator.CheckRam` | idrock-security-service/app/services/hardware_validation.py:80-101 | a missing RAM size is one medium finding; a non-number or a size below the minimum one high finding |
| `HardwareValidation.HardwareValidator.CheckResolution` | idrock-security-service/app/services/hardware_validation.py:103-117 | a given but implausible resolution is one issue with a low factor |
| `HardwareValidation.HardwareValidator.ValidateAdditionalSpecs` | idrock-security-service/app/services/hardware_validation.py:172-218 | the platform, timezone and language factors are appended, or the `len` error is raised |
| `HardwareValidation.HardwareValidator.CheckPlatform` | idrock-security-service/app/services/hardware_validation.py:180-189 | the platform factor is appended to those found so far |
| `HardwareValidation.HardwareValidator.CheckTimezone` | idrock-security-service/app/services/hardware_validation.py:191-209 | the timezone factor is appended to those found so far |
| `HardwareValidation.HardwareValidator.UpdateMinimumRequirements` | idrock-security-service/app/services/hardware_validation.py:244-260 | both minimums are set exactly when both are positive, and neither changes otherwise |
| `HardwareValidation.NoDataIsReviewed` | idrock-security-service/app/services/hardware_validation.py:36-51 | a missing or empty payload is invalid, reviewed, with one medium `missing_hardware_info` factor |
| `HardwareValidation.HighFindingIsInsufficient` | idrock-security-service/app/services/hardware_validation.py:57-117 | every high factor of a core check comes with an issue |
| `HardwareValidation.ReviewIffIssues` | idrock-security-service/app/services/hardware_validation.py:119-129 | checked hardware is reviewed exactly when it has an issue, that is exactly when it is invalid |
| `HardwareValidation.IssuesIgnoreExtras` | idrock-security-service/app/services/hardware_validation.py:172-218 | the issues depend only on the core count, the RAM and the resolution |
| `HardwareValidation.VerdictIssues` | idrock-security-service/app/services/hardware_validation.py:53-129 | a checked verdict holds the core checks' issues and factors, then the additional factors |
| `HardwareValidation.WeakMachine` | idrock-security-service/app/services/hardware_validation.py:57-129 | one core and 2 GB under the default minimums give two high factors, invalid, reviewed |
| `HardwareValidation.LowerPrinted` | idrock-security-service/app/services/hardware_validation.py:155 | lower-casing leaves a printed `WxH` as it is |
| `HardwareValidation.SplitPrinted` | idrock-security-service/app/services/hardware_validation.py:155-160 | splitting a printed `WxH` gives back both numbers |
| `HardwareValidation.PrintedResolution` | idrock-security-service/app/services/hardware_validation.py:149-169 | a resolution printed as `WxH` is accepted exactly when 800 ≤ W ≤ 7680, 600 ≤ H ≤ 4320 and W > H |
| `HardwareValidation.NoSeparatorRefused` | idrock-security-service/app/services/hardware_validation.py:155-157 | a resolution without any 'x' is refused |
| `HardwareValidation.ExtractHardwareFromUserAgent` | idrock-security-service/app/services/hardware_validation.py:263-292 | nothing for an empty string; otherwise the fallback source marker, and a listed platform exactly when the User-Agent names Windows, Macintosh, Mac OS or Linux |
| `HardwareValidation.ExtractedPlatformIsUsual` | idrock-security-service/app/services/hardware_validation.py:263-292 | a platform read from a User-Agent never draws the unusual-platform factor |
| `TravelDetection.CalculateTravelSpeed` | idrock-security-service/app/services/travel_detection.py:17-46 | an elapsed time of zero or less is an infinite speed; otherwise the speed times the elapsed hours is the distance |
| `TravelDetection.TravelDetector.constructor` | idrock-security-service/app/services/travel_detection.py:13-14 | the thresholds start at 1000 km/h for review and 2000 km/h for deny |
| `TravelDetection.TravelDetector.Classify` | idrock-security-service/app/services/travel_detection.py:139-147 | DENY exactly strictly above the deny threshold; REVIEW exactly strictly above the review threshold and not above the deny one |
| `TravelDetection.TravelDetector.AnalyzeTravelFeasibility` | idrock-security-service/app/services/travel_detection.py:49-171 | feasible exactly when allowed; no previous located access gives the no-data answer; otherwise the distance from the latest located access, the elapsed hours, the speed and the verdict it classifies to, reporting that access's coordinates and time |
| `TravelDetection.TravelDetector.GetTravelRiskFactors` | idrock-security-service/app/services/travel_detection.py:178-226 | the summary is always present; `impossible_travel` (high) exactly above the deny threshold, `suspicious_travel` (medium) exactly between the thresholds; the geographic context exactly with a previous location, cross-border over 100 km and intercontinental over 5000 km |
| `TravelDetection.TravelDetector.UpdateSpeedThresholds` | idrock-security-service/app/services/travel_detection.py:229-245 | both thresholds are set exactly when 0 < review < deny, and neither changes otherwise |
| `TravelDetection.CoordinatesPresent` | idrock-security-service/app/services/travel_detection.py:97-110 | a located access always has readable coordinates, so the unreadable-coordinates branch is never taken |
| `TravelDetection.DefaultBoundaries` | idrock-security-service/app/services/travel_detection.py:13-14 | with the defaults, exactly 1000 km/h allows, exactly 2000 km/h reviews, above 2000 km/h and infinity deny |
| `TravelDetection.SimultaneousIsDenied` | idrock-security-service/app/services/travel_detection.py:118-135 | an access no later than the latest located one is denied as infinitely fast, even without moving |
| `TravelDetection.IndicatorsMatchVerdict` | idrock-security-service/app/services/travel_detection.py:139-147 | with valid thresholds, the deny indicator fires exactly for DENY and the suspicious one exactly for REVIEW |
| `ProxyCheck.MockResponse` | idrock-security-service/app/services/proxycheck_client.py:164-204 | addresses starting with "10.", "192.168." or "172." get the private-network record with risk 1; every other address the generic US record with risk 5; never a proxy, always residential, USD |
| `ProxyCheck.CurrencyOf` | idrock-security-service/app/services/proxycheck_client.py:121-130 | a dict currency is read field by field with "unknown" defaults; anything else becomes three "unknown" fields |
| `ProxyCheck.Normalize` | idrock-security-service/app/services/proxycheck_client.py:91-133 | normalisation fails exactly when `int()` of the risk fails; otherwise every field is the entry's value or "unknown", the risk defaults to 0, "timezone" becomes the time zone and the raw entry is kept |
| `ProxyCheck.NormalizeEmpty` | idrock-security-service/app/services/proxycheck_client.py:91-133 | an entry without any field normalises to all defaults and risk 0 |
| `ProxyCheck.CurrencyNotDict` | idrock-security-service/app/services/proxycheck_client.py:121-130 | a currency given as a string is replaced as a whole |
| `ProxyCheck.Unexpected` | idrock-security-service/app/services/proxycheck_client.py:88-89 | every failure inside the lookup is re-raised as "Unexpected error: " followed by the original message |
| `ProxyCheck.CheckIpResult` | idrock-security-service/app/services/proxycheck_client.py:67-89 | the lookup succeeds exactly for a dict payload without "error" whose entry for the address is a non-empty dict that normalises, and then returns that normalised entry; a provider error and a missing entry raise their messages; every failure carries the catch-all prefix |
| `ProxyCheck.CheckIp` | idrock-security-service/app/services/proxycheck_client.py:29-89 | a fetched payload is handled as above; a transport or status failure raises its message |
| `ProxyCheck.CheckIpAnswers` | idrock-security-service/app/services/proxycheck_client.py:71-82 | a payload holding a non-empty entry for the address answers with that entry normalised |
| `ProxyCheck.CheckIpOtherAddress` | idrock-security-service/app/services/proxycheck_client.py:74-77 | a payload keyed by another address has no data for this one |
| `ProxyCheck.BatchRisk` | idrock-security-service/app/services/proxycheck_client.py:150-160 | a failed address reports risk 50, a found one its own risk |
| `ProxyCheck.Outcomes` | idrock-security-service/app/services/proxycheck_client.py:146-147 | the gathered outcomes are the lookups of each address, in request order |
| `ProxyCheck.ToRecord` | idrock-security-service/app/services/proxycheck_client.py:150-160 | a success is stored as it is; a failure becomes the placeholder carrying its message |
| `ProxyCheck.Records` | idrock-security-service/app/services/proxycheck_client.py:150-160 | each outcome is stored by the rule above, one for one |
| `ProxyCheck.CheckMultipleIps` | idrock-security-service/app/services/proxycheck_client.py:135-162 | the result maps every input address, and only those, to the record of its outcome |
| `ProxyCheck.Collect` | idrock-security-service/app/services/proxycheck_client.py:149-162 | the loop stores each address's record, later addresses overwriting earlier ones |
| `ProxyCheck.AggregateKeys` | idrock-security-service/app/services/proxycheck_client.py:149-162 | the result has one key per distinct input address |
| `ProxyCheck.AggregateLastWins` | idrock-security-service/app/services/proxycheck_client.py:149-162 | each address maps to the record of its last occurrence |
| `ProxyCheck.AggregateIsolated` | idrock-security-service/app/services/proxycheck_client.py:146-162 | one address's outcome affects no other address's record |
| `ProxyCheck.BatchFailureIsPlaceholder` | idrock-security-service/app/services/proxycheck_client.py:147-160 | a failed lookup whose address does not occur again is reported by the placeholder with risk 50 |
| `History.Where` | idrock-security-service/app/services/history_service.py:86-116 | one filter keeps exactly the rows meeting its condition, never more rows than it was given |
| `History.FiltersConjunctive` | idrock-security-service/app/services/history_service.py:86-116 | a row is kept exactly when it meets every given filter: user, inclusive date bounds, risk level and action type |
| `History.NoFiltersKeepAll` | idrock-security-service/app/services/history_service.py:86-116 | with no filter given every row is kept, in order |
| `History.DateBoundsInclusive` | idrock-security-service/app/services/history_service.py:101-106 | a row dated exactly at both bounds is kept |
| `History.PageCountIsCeiling` | idrock-security-service/app/services/history_service.py:46 | the page count is the least number of full-size pages that hold every record, and zero exactly for no records |
| `History.Offset` | idrock-security-service/app/services/history_service.py:47 | the offset of a valid page is never negative |
| `History.PageOf` | idrock-security-service/app/services/history_service.py:47-50 | a page holds at most `limit` rows, is empty past the end, and holds the ordered rows from the offset on, in order |
| `History.RecordOnItsPage` | idrock-security-service/app/services/history_service.py:46-50 | record k of the ordered rows is on page k / limit + 1 at position k mod limit, and that page is within the page count |
| `History.ExtractDeviceFingerprint` | idrock-security-service/app/services/history_service.py:143-155 | the fingerprint of non-empty dict session data, and None otherwise |
| `History.FingerprintAgreesWithToDict` | idrock-security-service/app/services/history_service.py:143-155 | the history view and the stored row's dict agree on the fingerprint |
| `History.ConvertToRecord` | idrock-security-service/app/services/history_service.py:118-141 | conversion succeeds exactly for a dated row with a score in [0, 100], a non-negative processing time and a string or absent fingerprint; it keeps the request id, the time and the risk factors (none becomes empty) |
| `History.ConvertAll` | idrock-security-service/app/services/history_service.py:53 | the page converts exactly when every row does, one record per row in order |
| `History.CreateFiltersSummary` | idrock-security-service/app/services/history_service.py:157-180 | "A to B" with both dates, "from A" or "until B" with one, nothing with neither; the other filters are echoed |
| `History.Pagination` | idrock-security-service/app/services/history_service.py:55-63 | at least one page is reported; there is a next page exactly before the last computed page and a previous page exactly after the first |
| `History.GetFilteredHistory` | idrock-security-service/app/services/history_service.py:22-84 | the response is Ok exactly when every row of the page slice converts to a record; it then carries the request id, the pagination of all matching records, exactly as many records as the page slice of the ordered matches (so at most `limit`) and the filters summary |
| `History.SortedMatches` | idrock-security-service/app/services/history_service.py:50 | ordering the matching rows keeps exactly them, newest first |
| `History.OrderedMatches` | idrock-security-service/app/services/history_service.py:50 | the ordered rows are as many as the matching ones, newest first, each a stored row meeting every filter |
| `History.PageRecords` | idrock-security-service/app/services/history_service.py:47-53 | one converted record per row of the page slice, each the conversion of the ordered matching row at its offset |
| `History.PageContents` | idrock-security-service/app/services/history_service.py:22-84 | each record of the response is the conversion of a stored row meeting every filter, taken newest first from the offset, and exactly as many records as the page slice holds |
| `History.EmptyHistory` | idrock-security-service/app/services/history_service.py:46-62 | no matching record gives no data, one reported page, no next page and a total of zero |
| `HistorySchemas.ValidateDateRange` | idrock-security-service/app/schemas/history.py:19-25 | refused exactly when both dates are given and the end is not after the start; otherwise the end date is kept |
| `HistorySchemas.OneDateAccepted` | idrock-security-service/app/schemas/history.py:19-25 | a start or an end date alone is always accepted |
| `HistorySchemas.DefaultFiltersValid` | idrock-security-service/app/schemas/history.py:8-17 | the defaults (page 1, 50 per page, JSON) are valid |
| `AssessmentStats.PeriodOf` | idrock-security-service/app/api/v1/endpoints/identity.py:174-175 | the period ends now and spans exactly `days` days |
| `AssessmentStats.Selected` | idrock-security-service/app/api/v1/endpoints/identity.py:178-188 | exactly the stored rows created inside the closed window, of the given user when there is one, are selected |
| `AssessmentStats.Levels` | idrock-security-service/app/api/v1/endpoints/identity.py:211-213 | the risk-level column, one entry per selected row |
| `AssessmentStats.Scores` | idrock-security-service/app/api/v1/endpoints/identity.py:214-217 | the confidence-score column, one entry per selected row |
| `AssessmentStats.Actions` | idrock-security-service/app/api/v1/endpoints/identity.py:233 | the action column, one entry per selected row |
| `AssessmentStats.Min` | idrock-security-service/app/api/v1/endpoints/identity.py:230 | the lowest score is one of the scores and no score is lower |
| `AssessmentStats.Max` | idrock-security-service/app/api/v1/endpoints/identity.py:231 | the highest score is one of the scores and no score is higher |
| `AssessmentStats.MostCommon` | idrock-security-service/app/api/v1/endpoints/identity.py:233 | the key chosen is a candidate occurring at least as often as every other candidate |
| `AssessmentStats.MostCommonAction` | idrock-security-service/app/api/v1/endpoints/identity.py:233 | the most common action is an action seen, occurring at least as often as every action seen |
| `AssessmentStats.ColumnsSnoc` | idrock-security-service/app/api/v1/endpoints/identity.py:211-215 | one more row adds one entry to each column |
| `AssessmentStats.Accumulate` | idrock-security-service/app/api/v1/endpoints/identity.py:207-215 | the loop leaves the counting dict of the risk levels and the list of the scores |
| `AssessmentStats.GetAssessmentStats` | idrock-security-service/app/api/v1/endpoints/identity.py:149-240 | no selected row gives the zero distribution and average 0; otherwise the total, the level counts, the exact average, the lowest and highest score and the most common action of the selected rows |
| `AssessmentStats.SelectedRows` | idrock-security-service/app/api/v1/endpoints/identity.py:175-188 | a row is counted exactly when it is stored, created between now − days and now, and of the given non-empty user |
| `AssessmentStats.DistributionIsExact` | idrock-security-service/app/api/v1/endpoints/identity.py:207-213 | the distribution holds exactly the levels seen, each with its number of rows, and its counts add up to the total |
| `AssessmentStats.SumAtLeast` | idrock-security-service/app/api/v1/endpoints/identity.py:217 | scores all at least lo sum to at least n·lo |
| `AssessmentStats.SumAtMost` | idrock-security-service/app/api/v1/endpoints/identity.py:217 | scores all at most hi sum to at most n·hi |
| `AssessmentStats.MeanBounds` | idrock-security-service/app/api/v1/endpoints/identity.py:217 | bounds on the sum bound the mean |
| `AssessmentStats.AverageInRange` | idrock-security-service/app/api/v1/endpoints/identity.py:217-231 | the lowest score, the average and the highest score are in order |
| `AssessmentStats.StatsProperties` | idrock-security-service/app/api/v1/endpoints/identity.py:207-233 | the counts add up to the total, only levels seen appear, the average lies between the lowest and highest score, and the most common action occurs at least as often as every action seen |
| `IdentitySchemas.ValidateIpAddress` | idrock-security-service/app/schemas/identity.py:31-38 | the address is kept exactly when it parses as an IPv4 or IPv6 address; otherwise the request is refused with "Invalid IP address format" |
| `DeviceSchemas.LocationToStored` | idrock-security-service/app/schemas/device.py:9-14 | the stored location carries the request's coordinates, country and city unchanged |
| `DeviceSchemas.StoredLocationIsUsable` | idrock-security-service/app/schemas/device.py:9-14 | an access stored with an accepted location is located, its coordinates read back unchanged, and they pass the travel detector's coordinate check |
| `DeviceSchemas.HardwareDict` | idrock-security-service/app/schemas/device.py:17-24 | the nested hardware record becomes a dict with all six fields, None as null |
| `DeviceSchemas.SchemaHardwareIsChecked` | idrock-security-service/app/schemas/device.py:17-24 | accepted hardware never makes the validator raise or see an empty dict, and never draws the language factor, which the 10-character bound already excludes |
| `DeviceSchemas.SchemaHardwareFindings` | idrock-security-service/app/schemas/device.py:19-20 | for accepted hardware the core count is reported missing exactly when absent and insufficient exactly when below the minimum; the same for the RAM |
| `DeviceSchemas.SchemaAdmitsWeakHardware` | idrock-security-service/app/schemas/device.py:19-20 | the schema admits one core and 0.1 GB, which the default minimums flag as insufficient on both counts |
| `DeviceSchemas.ExampleAccessRequest` | idrock-security-service/app/schemas/device.py:91-113 | the schema's sample access request is valid |
| `IpAddress.DottedQuadValid` | idrock-security-service/app/schemas/device.py:82-89 | four octets up to 255 printed with dots form an address the parser accepts |
| `IpAddress.OctetTooLarge` | idrock-security-service/app/schemas/identity.py:31-38 | an octet above 255 is refused |
| `IpAddress.LeadingZeroRefused` | idrock-security-service/app/schemas/identity.py:31-38 | an octet with a leading zero is refused |
| `IpAddress.LoopbackIPv6` | idrock-security-service/app/schemas/identity.py:31-38 | the loopback `::1` is accepted |
| `Counting.TallyCounts` | idrock-security-service/app/services/device_access_service.py:155-165 | a counting dict holds exactly the keys seen, each with its number of occurrences |
| `Counting.TallySnoc` | idrock-security-service/app/services/device_access_service.py:155-165 | counting one more key bumps its count by one |
| `Counting.Distinct` | idrock-security-service/app/api/v1/endpoints/identity.py:233 | the distinct actions are exactly the actions seen |
| `Counting.DistinctHasNoDuplicates` | idrock-security-service/app/api/v1/endpoints/identity.py:233 | the set of actions holds each action once |
| `Counting.TallySum` | idrock-security-service/app/api/v1/endpoints/identity.py:207-213 | the counts of a counting dict add up to the number of keys counted |
| `Sorting.SortDesc` | idrock-security-service/app/services/history_service.py:50 | ordering keeps exactly the rows given, as a permutation |
| `Sorting.SortDescSorted` | idrock-security-service/app/services/history_service.py:50 | the ordered rows are newest first, rows without a time last |
| `Sorting.InsertSorted` | idrock-security-service/app/services/history_service.py:50 | inserting a row into rows in order keeps them in order |
| `Sorting.InsertStable` | idrock-security-service/app/services/history_service.py:50 | a row is inserted after exactly the leading rows that rank strictly above it, so it precedes every row with an equal key and the sort keeps tied rows in their stored order |
| `Values.Truncate` | idrock-security-service/app/services/hardware_validation.py:196 | `int()` of a float rounds toward zero |
| `Values.ToInt` | idrock-security-service/app/services/hardware_validation.py:196 | `int()` keeps an integer, parses a string, and raises on None, lists and dicts |
| `Strings.Lower` | idrock-security-service/app/services/browser_validation.py:90 | lower-casing keeps the length and maps each character on its own |
| `Strings.Split` | idrock-security-service/app/services/hardware_validation.py:155 | splitting always gives at least one part |
| `Strings.SplitWithout` | idrock-security-service/app/services/hardware_validation.py:155-157 | text without the separator splits into itself alone |
| `Strings.SplitCons` | idrock-security-service/app/services/hardware_validation.py:155 | a separator-free piece, the separator and a rest split into the piece followed by the parts of the rest |
| `Strings.NonDigitAbsent` | idrock-security-service/app/services/hardware_validation.py:155 | a run of digits holds no non-digit character, such as the 'x' or '.' separators |
| `Strings.SplitJoin` | idrock-security-service/app/services/hardware_validation.py:155 | two separator-free pieces joined by the separator split back into those two pieces |
| `Strings.IntToStringRoundTrip` | idrock-security-service/app/services/hardware_validation.py:196 | an integer printed in decimal reads back as itself through `int()` |
| `Values.GetOr` | idrock-security-service/app/services/hardware_validation.py:58 | `d.get(k, default)` is the stored value when the key is present and the default otherwise |
| `Values.Get` | idrock-security-service/app/services/hardware_validation.py:58 | `d.get(k)` is the stored value when the key is present and None otherwise |
| `Values.Len` | idrock-security-service/app/services/hardware_validation.py:213 | `len` is defined exactly for strings, lists and dicts, and a string's length is its number of characters |

## Left out

- HTTP routing, FastAPI dependency injection, authentication middleware, the health endpoints and the identity endpoints other than the statistics loop (in `/stats`, the `days` query bounds are not modelled either). devices.py, health.py, main.py, api.py, auth.py, demo-script.py and test_auth.py are not part of this model.
- The provider's HTTP transport and the httpx client. A lookup is modelled as either the parsed JSON payload or the message of the transport failure.
- Concurrency. The `asyncio.gather` of a batch lookup is modelled as a sequence of outcomes, one per address in input order. The IntegrityError race in create-or-get is modelled as a sequential insert-or-fetch, so the recovery by re-reading is reduced to the fetch.
- The geodesic distance. It is the function parameter `geodesic`, and `round(..., 2)` of speeds, distances and hours is not modelled: these are exact reals, with infinite speed an explicit case.
- TravelDetection.TravelDetector.GetTravelRiskFactors, TravelDetection.IndicatorsMatchVerdict: the indicators are computed from the exact speed. In Python, `get_travel_risk_factors` compares `travel_speed_kmh` after `round(..., 2)` (travel_detection.py:152). So a speed just above a threshold, for example in (2000, 2000.005) km/h, gives DENY there but draws `suspicious_travel` instead of `impossible_travel`, and the lemma does not cover that case.
- AssessmentStats.GetAssessmentStats: the average confidence score is the exact mean. Python reports `round(avg_confidence, 2)` (identity.py:228). Lowest score ≤ average ≤ highest score still holds after rounding, because both bounds are integers.
- The clock, uuid request ids, processing-time measurement and `strftime`. They are parameters (`now`, request ids, `day`).
- The regular-expression engine:
  - literal automation patterns are substring tests on the lower-cased User-Agent;
  - `python/\d+\.\d+`, `bot(?!.*mobile)`, `zombie\.js` and `\d{4,}` are hand-written predicates;
  - in those predicates, and in the `(\d+\.\d+)` version captures, a digit is an ASCII digit (`Strings.IsDigit`), while `\d` in a Python `str` pattern matches any Unicode decimal digit;
  - a custom pattern added at run time matches as a substring;
  - `re.compile` validity is the boolean parameter `compiles`.
- Case mapping covers ASCII letters only, with no Unicode case folding.
- Python `int()` is modelled as optional surrounding whitespace, an optional sign and ASCII digits. Underscores and non-ASCII digits are not accepted.
- The human-readable descriptions of risk factors and recommendations are not modelled, except where a field is stated. Python exception texts are approximated by their prefixes.
- ORM sessions, flush and commit, and the cascade machinery. Each table is a sequence in `Store.Database`, and a cascade delete removes the accesses and then the device. Device ids come from a counter, whereas SQLite could reuse the id of a deleted last row.
- History.Pagination: `math.ceil` is taken on exact rationals, so float rounding for huge totals is not modelled.
- Pydantic version 2 semantics are assumed for the schema bounds. Each bound is a predicate, and a request that fails it is simply not passed to the services.
- DeviceRegistry.GetDevicesByUser, History.GetFilteredHistory: rows with equal `created_at` keep their stored order, because the model's sort is stable. SQLite leaves that order unspecified, so a real query may return tied rows in another order.
- AssessmentStats.MostCommonAction: among action types with the same maximal count, the model picks the one seen first. Python's `max(set(...))` picks one in set-iteration order. The contract states only that the count is maximal and that the action occurs.
- `get_user_assessment_summary` in history_service.py. It always raises AttributeError at line 196 (`datetime.timedelta` on the `datetime` class), so it has no working behaviour to model.
- `get_hardware_risk_factors` in hardware_validation.py (lines 221-241). It only reshapes the validator's factor dict.
- HardwareValidation.HardwareResult: the `validation_details.validations_passed` dict (the per-check entries for a CPU, RAM or resolution that passes) and the `hardware_summary` echo of the five input fields are not modelled, because they restate the input and decide nothing; the issues, the factors and the verdict are.
- TravelDetection.TravelDetector.AnalyzeTravelFeasibility: the `invalid_previous_coordinates` branch is not modelled as reachable. A located access always has coordinates (TravelDetection.CoordinatesPresent), so the branch cannot be taken.
- BrowserValidation.BrowserValidator.ValidateBrowserEnvironment: a `languages` that is present but null makes the Python code raise TypeError. It is modelled as an `Err` result (BrowserValidation.NullLanguagesRaise), so the crash is kept rather than hidden.
- ProxyCheck.CheckIp: the provider's own errors are re-wrapped by the method's catch-all handler, so their message carries the `Unexpected error:` prefix. This is modelled as written.
