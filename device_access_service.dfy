/** Access history and behavioural patterns
    (services/device_access_service.py): recording an access, the latest
    access of a user, the hourly/daily/geographic histograms, ASN change,
    the temporal anomaly score and the retention purge. */
module AccessHistory {
  import opened Wrappers
  import opened Values
  import opened Strings
  import opened Devices
  import opened DeviceAccesses
  import opened AuditLogs
  import opened Store
  import opened Counting

  /** `datetime.hour` of a UTC timestamp in seconds. */
  function HourOf(t: int): (r: nat)
    ensures r < 24
  {
    (t / 3600) % 24
  }

  /** `datetime.weekday()`, Monday = 0; 1 January 1970 was a Thursday. */
  function WeekdayOf(t: int): (r: nat)
    ensures r < 7
  {
    (t / 86400 + 3) % 7
  }

  /** The access belongs to one of the user's devices (the join on
      `devices`). */
  predicate OwnedBy(ds: seq<Device>, a: DeviceAccess, userId: string) {
    var d := FindById(ds, a.deviceId);
    d.Some? && d.value.userId == userId
  }

  /** The audit row `record_access` writes when the device exists. The
      location is the stored city (None when the city is unset), or
      'Unknown' without location data. */
  function AccessRecordedLog(userId: string, deviceId: int, ipAddress: string, location: Option<Location>,
                             asn: Option<string>, riskFactors: Option<Dict>): (r: AuditLog)
    ensures r.eventType == "device_access_recorded" && r.category == "security" && r.severity == Info
    ensures r.userId == Some(userId) && r.message == "Device access recorded from IP " + ipAddress
    ensures r.details.Some? && Get(r.details.value, "device_id") == Int(deviceId)
    ensures location.None? ==> Get(r.details.value, "location") == Str("Unknown")
    ensures Get(r.details.value, "has_risk_factors") == Bool(riskFactors.Some? && riskFactors.value != map[])
  {
    var loc := if location.None? then Str("Unknown")
               else if location.value.city.Some? then Str(location.value.city.value) else Null;
    AuditLog("device_access_recorded", "security", Info, None, Some(userId), None,
      "Device access recorded from IP " + ipAddress,
      Some(map["device_id" := Int(deviceId), "ip_address" := Str(ipAddress), "location" := loc,
               "asn" := (if asn.Some? then Str(asn.value) else Null),
               "has_risk_factors" := Bool(riskFactors.Some? && riskFactors.value != map[])]),
      None, None)
  }

  const DuplicateAccessKey: string := "UNIQUE constraint failed: device_access.device_id, device_access.timestamp"

  /** A new key is still unique after the row is appended. */
  lemma AppendAccessValid(rows: seq<DeviceAccess>, a: DeviceAccess)
    requires AccessKeysUnique(rows)
    requires FindAccess(rows, a.deviceId, a.timestamp).None?
    ensures AccessKeysUnique(rows + [a])
  {
    var rows' := rows + [a];
    forall i, j | 0 <= i < j < |rows'| ensures !SameKey(rows'[i], rows'[j]) {
      assert rows'[i] == rows[i];
      if j < |rows| {
        assert rows'[j] == rows[j];
      } else {
        assert rows[i] in rows;
      }
    }
  }

  /** The lookup by key finds the only row with it. */
  lemma {:induction false} FindAfterAppend(rows: seq<DeviceAccess>, a: DeviceAccess)
    requires FindAccess(rows, a.deviceId, a.timestamp).None?
    ensures FindAccess(rows + [a], a.deviceId, a.timestamp) == Some(a)
    decreases |rows|
  {
    if rows == [] {
      assert rows + [a] == [a];
    } else {
      assert (rows + [a])[1..] == rows[1..] + [a];
      FindAfterAppend(rows[1..], a);
    }
  }

  /** `record_access`: the row is stamped with the current time; a second
      row for the same device in the same instant violates the primary key
      and nothing is stored. The audit row is written only for a device
      that exists. */
  method RecordAccess(db: Database, deviceId: int, ipAddress: string, location: Option<Location>, asn: Option<string>,
                      hardwareInfo: Option<Dict>, browserInfo: Option<Dict>, riskFactors: Option<Dict>, now: int)
      returns (r: Result<DeviceAccess, string>)
    requires db.Valid()
    modifies db
    ensures db.Valid()
    ensures r.Err? <==> FindAccess(old(db.accesses), deviceId, now).Some?
    ensures r.Err? ==> r.error == DuplicateAccessKey && db.accesses == old(db.accesses) && db.auditLogs == old(db.auditLogs)
    ensures r.Ok? ==> r.value == DeviceAccess(deviceId, now, ipAddress, location, asn, riskFactors, hardwareInfo, browserInfo)
    ensures r.Ok? ==> db.accesses == old(db.accesses) + [r.value]
    ensures r.Ok? ==> FindAccess(db.accesses, deviceId, now) == Some(r.value)
    ensures (r.Ok? && FindById(db.devices, deviceId).Some?) ==> (db.auditLogs == old(db.auditLogs) +
      [AccessRecordedLog(FindById(db.devices, deviceId).value.userId, deviceId, ipAddress, location, asn, riskFactors)])
    ensures (r.Ok? && FindById(db.devices, deviceId).None?) ==> db.auditLogs == old(db.auditLogs)
    ensures db.devices == old(db.devices) && db.assessments == old(db.assessments) && db.nextDeviceId == old(db.nextDeviceId)
  {
    if FindAccess(db.accesses, deviceId, now).Some? {
      return Err(DuplicateAccessKey);
    }
    var access := DeviceAccess(deviceId, now, ipAddress, location, asn, riskFactors, hardwareInfo, browserInfo);
    AppendAccessValid(db.accesses, access);
    FindAfterAppend(db.accesses, access);
    db.accesses := db.accesses + [access];
    var device := FindById(db.devices, deviceId);
    if device.Some? {
      db.auditLogs := db.auditLogs + [AccessRecordedLog(device.value.userId, deviceId, ipAddress, location, asn, riskFactors)];
    }
    r := Ok(access);
  }

  /** The user's access with the greatest timestamp. */
  function Latest(rows: seq<DeviceAccess>, ds: seq<Device>, userId: string): (r: Option<DeviceAccess>)
    ensures r.Some? ==> r.value in rows && OwnedBy(ds, r.value, userId)
    ensures r.Some? ==> forall a :: a in rows && OwnedBy(ds, a, userId) ==> a.timestamp <= r.value.timestamp
    ensures r.None? <==> forall a :: a in rows ==> !OwnedBy(ds, a, userId)
  {
    if rows == [] then None
    else
      var rest := Latest(rows[1..], ds, userId);
      if !OwnedBy(ds, rows[0], userId) then rest
      else if rest.None? || rest.value.timestamp < rows[0].timestamp then Some(rows[0])
      else rest
  }

  /** `get_latest_user_access` */
  function GetLatestUserAccess(db: Database, userId: string): (r: Option<DeviceAccess>)
    reads db
    ensures r.Some? ==> r.value in db.accesses && OwnedBy(db.devices, r.value, userId)
    ensures r.Some? ==> forall a :: a in db.accesses && OwnedBy(db.devices, a, userId) ==> a.timestamp <= r.value.timestamp
    ensures r.None? <==> forall a :: a in db.accesses ==> !OwnedBy(db.devices, a, userId)
  {
    Latest(db.accesses, db.devices, userId)
  }

  /** `detect_asn_change`: without a previous access or a previous ASN there
      is no change; otherwise the ASNs are compared. */
  function DetectAsnChange(db: Database, userId: string, currentAsn: string): (r: bool)
    reads db
    ensures var last := GetLatestUserAccess(db, userId);
            r <==> (last.Some? && last.value.asn.Some? && last.value.asn.value != "" && last.value.asn.value != currentAsn)
  {
    var last := GetLatestUserAccess(db, userId);
    if last.None? || last.value.asn.None? || last.value.asn.value == "" then false
    else last.value.asn.value != currentAsn
  }

  // ---------------------------------------------------------------------
  // Histograms

  /** The user's accesses at or after the cutoff. */
  function Window(rows: seq<DeviceAccess>, ds: seq<Device>, userId: string, cutoff: int): (r: seq<DeviceAccess>)
    ensures forall a :: a in r ==> a in rows && OwnedBy(ds, a, userId) && a.timestamp >= cutoff
    ensures forall a :: a in rows && OwnedBy(ds, a, userId) && a.timestamp >= cutoff ==> a in r
    ensures |r| <= |rows|
  {
    if rows == [] then []
    else if OwnedBy(ds, rows[0], userId) && rows[0].timestamp >= cutoff then [rows[0]] + Window(rows[1..], ds, userId, cutoff)
    else Window(rows[1..], ds, userId, cutoff)
  }

  function CountHour(rows: seq<DeviceAccess>, h: int): (r: nat)
    ensures r <= |rows|
  {
    if rows == [] then 0
    else CountHour(rows[..|rows| - 1], h) + (if HourOf(rows[|rows| - 1].timestamp) == h then 1 else 0)
  }

  function CountDay(rows: seq<DeviceAccess>, d: int): (r: nat)
    ensures r <= |rows|
  {
    if rows == [] then 0
    else CountDay(rows[..|rows| - 1], d) + (if WeekdayOf(rows[|rows| - 1].timestamp) == d then 1 else 0)
  }

  /** The 24 hour buckets, filled one access at a time. */
  function HourBuckets(rows: seq<DeviceAccess>): (r: seq<nat>)
    ensures |r| == 24
  {
    if rows == [] then seq(24, _ => 0)
    else
      var b := HourBuckets(rows[..|rows| - 1]);
      var h := HourOf(rows[|rows| - 1].timestamp);
      b[h := b[h] + 1]
  }

  /** The 7 weekday buckets, filled one access at a time. */
  function DayBuckets(rows: seq<DeviceAccess>): (r: seq<nat>)
    ensures |r| == 7
  {
    if rows == [] then seq(7, _ => 0)
    else
      var b := DayBuckets(rows[..|rows| - 1]);
      var d := WeekdayOf(rows[|rows| - 1].timestamp);
      b[d := b[d] + 1]
  }

  /** Each hour bucket holds the number of accesses in that hour, and the
      buckets add up to the number of accesses. */
  lemma {:induction false} HourBucketsCount(rows: seq<DeviceAccess>)
    ensures forall h :: 0 <= h < 24 ==> HourBuckets(rows)[h] == CountHour(rows, h)
    ensures Sum(HourBuckets(rows)) == |rows|
    decreases |rows|
  {
    if rows == [] {
      SumZero(HourBuckets(rows), 0);
      assert HourBuckets(rows)[0..] == HourBuckets(rows);
    } else {
      var init := rows[..|rows| - 1];
      HourBucketsCount(init);
      SumIncr(HourBuckets(init), HourOf(rows[|rows| - 1].timestamp));
    }
  }

  /** Each weekday bucket holds the number of accesses on that weekday, and
      the buckets add up to the number of accesses. */
  lemma {:induction false} DayBucketsCount(rows: seq<DeviceAccess>)
    ensures forall d :: 0 <= d < 7 ==> DayBuckets(rows)[d] == CountDay(rows, d)
    ensures Sum(DayBuckets(rows)) == |rows|
    decreases |rows|
  {
    if rows == [] {
      SumZero(DayBuckets(rows), 0);
      assert DayBuckets(rows)[0..] == DayBuckets(rows);
    } else {
      var init := rows[..|rows| - 1];
      DayBucketsCount(init);
      SumIncr(DayBuckets(init), WeekdayOf(rows[|rows| - 1].timestamp));
    }
  }

  /** The country an access is counted under: location data with a
      non-empty country. */
  function CountryKey(a: DeviceAccess): Option<string> {
    if a.location.Some? && a.location.value.country.Some? && a.location.value.country.value != ""
    then a.location.value.country else None
  }

  /** The ASN an access is counted under: a non-empty one. */
  function AsnKey(a: DeviceAccess): Option<string> {
    if a.asn.Some? && a.asn.value != "" then a.asn else None
  }

  /** The keys the accesses contribute, in order. */
  function Keys(rows: seq<DeviceAccess>, key: DeviceAccess -> Option<string>): (r: seq<string>)
    ensures |r| <= |rows|
  {
    if rows == [] then []
    else
      var last := rows[|rows| - 1];
      Keys(rows[..|rows| - 1], key) + (if key(last).Some? then [key(last).value] else [])
  }

  function IpKey(a: DeviceAccess): Option<string> {
    Some(a.ipAddress)
  }

  /** What one more access adds to a counting dict. */
  lemma TallyStep(rows: seq<DeviceAccess>, i: nat, key: DeviceAccess -> Option<string>)
    requires i < |rows|
    ensures Tally(Keys(rows[..i + 1], key)) ==
      if key(rows[i]).Some? then Bump(Tally(Keys(rows[..i], key)), key(rows[i]).value)
      else Tally(Keys(rows[..i], key))
  {
    var pre := rows[..i + 1];
    assert pre[..i] == rows[..i] && pre[i] == rows[i];
    var ks := Keys(rows[..i], key);
    if key(rows[i]).Some? {
      assert Keys(pre, key) == ks + [key(rows[i]).value];
      TallySnoc(ks, key(rows[i]).value);
    } else {
      assert Keys(pre, key) == ks + [];
      assert ks + [] == ks;
    }
  }

  /** The five counters `get_access_pattern_data` fills in its loop. */
  datatype Counts = Counts(hourly: seq<nat>, daily: seq<nat>, geo: map<string, nat>, asns: map<string, nat>, ips: map<string, nat>)

  /** One iteration of the loop. */
  function AddAccess(c: Counts, a: DeviceAccess): (r: Counts)
    requires |c.hourly| == 24 && |c.daily| == 7
    ensures |r.hourly| == 24 && |r.daily| == 7
  {
    var h := HourOf(a.timestamp);
    var d := WeekdayOf(a.timestamp);
    Counts(c.hourly[h := c.hourly[h] + 1], c.daily[d := c.daily[d] + 1],
      if CountryKey(a).Some? then Bump(c.geo, CountryKey(a).value) else c.geo,
      if AsnKey(a).Some? then Bump(c.asns, AsnKey(a).value) else c.asns,
      Bump(c.ips, a.ipAddress))
  }

  /** The counters after the loop has seen `rows`. */
  function CountsOf(rows: seq<DeviceAccess>): (r: Counts)
    ensures |r.hourly| == 24 && |r.daily| == 7
  {
    if rows == [] then Counts(seq(24, _ => 0), seq(7, _ => 0), map[], map[], map[])
    else AddAccess(CountsOf(rows[..|rows| - 1]), rows[|rows| - 1])
  }

  /** The loop's counters are the hour and weekday buckets and the counting
      dicts of the country, ASN and IP keys. */
  lemma CountsOfParts(rows: seq<DeviceAccess>)
    ensures CountsOf(rows).hourly == HourBuckets(rows) && CountsOf(rows).daily == DayBuckets(rows)
    ensures CountsOf(rows).geo == Tally(Keys(rows, CountryKey))
    ensures CountsOf(rows).asns == Tally(Keys(rows, AsnKey))
    ensures CountsOf(rows).ips == Tally(Keys(rows, IpKey))
  {
    CountsOfBuckets(rows);
    CountsOfTallies(rows);
  }

  lemma {:induction false} CountsOfBuckets(rows: seq<DeviceAccess>)
    ensures CountsOf(rows).hourly == HourBuckets(rows) && CountsOf(rows).daily == DayBuckets(rows)
    decreases |rows|
  {
    if rows != [] {
      CountsOfBuckets(rows[..|rows| - 1]);
    }
  }

  lemma {:induction false} CountsOfTallies(rows: seq<DeviceAccess>)
    ensures CountsOf(rows).geo == Tally(Keys(rows, CountryKey))
    ensures CountsOf(rows).asns == Tally(Keys(rows, AsnKey))
    ensures CountsOf(rows).ips == Tally(Keys(rows, IpKey))
    decreases |rows|
  {
    if rows != [] {
      var i := |rows| - 1;
      CountsOfTallies(rows[..i]);
      assert rows[..i + 1] == rows;
      TallyStep(rows, i, CountryKey);
      TallyStep(rows, i, AsnKey);
      TallyStep(rows, i, IpKey);
    }
  }

  function Sum(s: seq<nat>): nat {
    if s == [] then 0 else s[0] + Sum(s[1..])
  }

  lemma {:induction false} SumIncr(s: seq<nat>, h: nat)
    requires h < |s|
    ensures Sum(s[h := s[h] + 1]) == Sum(s) + 1
    decreases |s|
  {
    if h == 0 {
      assert s[h := s[h] + 1][1..] == s[1..];
    } else {
      assert s[h := s[h] + 1][1..] == s[1..][h - 1 := s[h] + 1];
      SumIncr(s[1..], h - 1);
    }
  }

  /** `max(pattern, key=pattern.get)` over keys "0", "1", ... in insertion
      order: the lowest bucket with the maximal count. */
  function ArgMax(s: seq<nat>): (r: nat)
    requires |s| > 0
    ensures r < |s|
    ensures forall j :: 0 <= j < |s| ==> s[j] <= s[r]
    ensures forall j :: 0 <= j < r ==> s[j] < s[r]
  {
    if |s| == 1 then 0
    else
      var k := ArgMax(s[..|s| - 1]);
      assert forall j :: 0 <= j < |s| - 1 ==> s[..|s| - 1][j] == s[j];
      if s[|s| - 1] > s[k] then |s| - 1 else k
  }

  /** The dict `get_access_pattern_data` returns; the hour and weekday
      buckets are indexed by the number their string key spells. */
  datatype PatternData = PatternData(
    analysisPeriodDays: int,
    totalAccesses: nat,
    hourly: seq<nat>,
    daily: seq<nat>,
    geographic: map<string, nat>,
    asns: map<string, nat>,
    ips: map<string, nat>,
    mostCommonHour: nat,
    mostCommonDay: nat,
    uniqueCountries: nat,
    uniqueAsns: nat,
    uniqueIps: nat)

  /** `get_access_pattern_data`: one pass over the user's accesses since
      `now - daysBack` days. */
  method GetAccessPatternData(db: Database, userId: string, daysBack: int, now: int) returns (p: PatternData)
    ensures p == PatternOf(Window(db.accesses, db.devices, userId, now - daysBack * 86400), daysBack)
  {
    var rows := Window(db.accesses, db.devices, userId, now - daysBack * 86400);
    p := Analyse(rows, daysBack);
  }

  /** `get_access_pattern_data` after the query: the counting loop, then the
      dict built from its counters. */
  method Analyse(rows: seq<DeviceAccess>, daysBack: int) returns (p: PatternData)
    ensures p == PatternOf(rows, daysBack)
  {
    var c := CountAll(rows);
    CountsOfParts(rows);
    p := PatternData(daysBack, |rows|, c.hourly, c.daily, c.geo, c.asns, c.ips, ArgMax(c.hourly), ArgMax(c.daily),
      |c.geo.Keys|, |c.asns.Keys|, |c.ips.Keys|);
  }

  /** The body of that loop: one access bumps its hour, its weekday, and
      its country, ASN and IP counters. */
  method CountAccess(hourly0: seq<nat>, daily0: seq<nat>, geo0: map<string, nat>, asns0: map<string, nat>,
      ips0: map<string, nat>, a: DeviceAccess)
    returns (hourly: seq<nat>, daily: seq<nat>, geo: map<string, nat>, asns: map<string, nat>, ips: map<string, nat>)
    requires |hourly0| == 24 && |daily0| == 7
    ensures Counts(hourly, daily, geo, asns, ips) == AddAccess(Counts(hourly0, daily0, geo0, asns0, ips0), a)
  {
    var h := HourOf(a.timestamp);
    hourly := hourly0[h := hourly0[h] + 1];
    var d := WeekdayOf(a.timestamp);
    daily := daily0[d := daily0[d] + 1];
    geo, asns := geo0, asns0;
    if CountryKey(a).Some? {
      geo := Bump(geo, CountryKey(a).value);
    }
    if AsnKey(a).Some? {
      asns := Bump(asns, AsnKey(a).value);
    }
    ips := Bump(ips0, a.ipAddress);
  }

  /** The loop of `get_access_pattern_data` over the selected accesses. */
  method CountAll(rows: seq<DeviceAccess>) returns (c: Counts)
    ensures c == CountsOf(rows)
  {
    var hourly: seq<nat> := seq(24, _ => 0);
    var daily: seq<nat> := seq(7, _ => 0);
    var geo: map<string, nat> := map[];
    var asns: map<string, nat> := map[];
    var ips: map<string, nat> := map[];
    var i := 0;
    assert rows[..0] == [];
    while i < |rows|
      invariant 0 <= i <= |rows|
      invariant Counts(hourly, daily, geo, asns, ips) == CountsOf(rows[..i])
    {
      assert rows[..i + 1][..i] == rows[..i];
      assert CountsOf(rows[..i + 1]) == AddAccess(CountsOf(rows[..i]), rows[i]);
      hourly, daily, geo, asns, ips := CountAccess(hourly, daily, geo, asns, ips, rows[i]);
      i := i + 1;
    }
    assert rows[..i] == rows;
    c := Counts(hourly, daily, geo, asns, ips);
  }

  /** The pattern dict of a set of accesses, as the loop leaves it. */
  function PatternOf(rows: seq<DeviceAccess>, daysBack: int): PatternData {
    var hourly := HourBuckets(rows);
    var daily := DayBuckets(rows);
    var geo := Tally(Keys(rows, CountryKey));
    var asns := Tally(Keys(rows, AsnKey));
    var ips := Tally(Keys(rows, IpKey));
    PatternData(daysBack, |rows|, hourly, daily, geo, asns, ips, ArgMax(hourly), ArgMax(daily),
      |geo.Keys|, |asns.Keys|, |ips.Keys|)
  }

  /** What the pattern dict reports: the buckets count the accesses per
      hour and weekday and each add up to the total; the counting dicts are
      those of the countries, ASNs and IPs seen, each `unique_*` the number
      of distinct keys; the most common hour and day are the lowest buckets
      with the maximal count. */
  lemma PatternOfMeaning(rows: seq<DeviceAccess>, daysBack: int)
    ensures var p := PatternOf(rows, daysBack);
      && p.analysisPeriodDays == daysBack && p.totalAccesses == |rows|
      && |p.hourly| == 24 && |p.daily| == 7
      && (forall h :: 0 <= h < 24 ==> p.hourly[h] == CountHour(rows, h))
      && (forall d :: 0 <= d < 7 ==> p.daily[d] == CountDay(rows, d))
      && Sum(p.hourly) == p.totalAccesses && Sum(p.daily) == p.totalAccesses
      && (forall k :: k in p.geographic <==> k in Keys(rows, CountryKey))
      && (forall k :: k in p.geographic ==> p.geographic[k] == Occurrences(Keys(rows, CountryKey), k))
      && (forall k :: k in p.asns <==> k in Keys(rows, AsnKey))
      && (forall k :: k in p.ips <==> k in Keys(rows, IpKey))
      && p.uniqueCountries == |set k | k in Keys(rows, CountryKey)|
      && p.uniqueAsns == |set k | k in Keys(rows, AsnKey)|
      && p.uniqueIps == |set k | k in Keys(rows, IpKey)|
      && (forall h :: 0 <= h < 24 ==> p.hourly[h] <= p.hourly[p.mostCommonHour])
      && (forall h :: 0 <= h < p.mostCommonHour ==> p.hourly[h] < p.hourly[p.mostCommonHour])
      && (forall d :: 0 <= d < 7 ==> p.daily[d] <= p.daily[p.mostCommonDay])
      && (forall d :: 0 <= d < p.mostCommonDay ==> p.daily[d] < p.daily[p.mostCommonDay])
  {
    HourBucketsCount(rows);
    DayBucketsCount(rows);
    TallyCounts(Keys(rows, CountryKey));
    TallyCounts(Keys(rows, AsnKey));
    TallyCounts(Keys(rows, IpKey));
  }

  lemma {:induction false} SumZero(s: seq<nat>, k: nat)
    requires k <= |s|
    requires forall j :: 0 <= j < |s| ==> s[j] == 0
    ensures Sum(s[k..]) == 0
    decreases |s| - k
  {
    if k < |s| {
      SumZero(s, k + 1);
      assert s[k..][1..] == s[k + 1..];
    }
  }

  /** Every country counted comes from an access whose location names it,
      and every such access is counted. */
  lemma {:induction false} CountryKeysFromLocations(rows: seq<DeviceAccess>, c: string)
    ensures c in Keys(rows, CountryKey) <==> exists a :: a in rows && CountryKey(a) == Some(c)
    decreases |rows|
  {
    if rows != [] {
      var init := rows[..|rows| - 1];
      var last := rows[|rows| - 1];
      CountryKeysFromLocations(init, c);
      assert rows == init + [last];
      if c in Keys(rows, CountryKey) && c !in Keys(init, CountryKey) {
        assert CountryKey(last) == Some(c);
      }
      if exists a :: a in rows && CountryKey(a) == Some(c) {
        var a :| a in rows && CountryKey(a) == Some(c);
        if a != last {
          assert a in init;
        }
      }
    }
  }

  // ---------------------------------------------------------------------
  // Temporal anomaly

  function Clamp01(x: real): (r: real)
    ensures 0.0 <= r <= 1.0
    ensures 0.0 <= x <= 1.0 ==> r == x
  {
    if x < 0.0 then 0.0 else if x > 1.0 then 1.0 else x
  }

  /** The anomaly formula: with fewer than five accesses there is not
      enough history; otherwise the rarer the current hour and weekday,
      the higher the score. */
  function AnomalyScore(total: nat, hourCount: nat, dayCount: nat): (r: real)
    ensures 0.0 <= r <= 1.0
    ensures total < 5 ==> r == 0.0
  {
    if total < 5 then 0.0
    else
      var hourAnomaly := 1.0 - (hourCount as real / total as real) * 24.0;
      var dayAnomaly := 1.0 - (dayCount as real / total as real) * 7.0;
      Clamp01(hourAnomaly * 0.7 + dayAnomaly * 0.3)
  }

  /** A time never seen before, with enough history, is maximally
      anomalous. */
  lemma UnseenTimeIsMaximal(total: nat)
    requires total >= 5
    ensures AnomalyScore(total, 0, 0) == 1.0
  {
  }

  /** More accesses at the current hour never raise the score. */
  lemma MoreHourAccessesLowerScore(total: nat, h1: nat, h2: nat, dayCount: nat)
    requires h1 <= h2
    ensures AnomalyScore(total, h2, dayCount) <= AnomalyScore(total, h1, dayCount)
  {
    if total >= 5 {
      var t := total as real;
      assert h1 as real / t <= h2 as real / t by {
        assert h1 as real <= h2 as real;
        DivMonotone(h1 as real, h2 as real, t);
      }
    }
  }

  lemma DivMonotone(a: real, b: real, t: real)
    requires a <= b && t > 0.0
    ensures a / t <= b / t
  {
    assert b / t - a / t == (b - a) / t;
  }

  /** A bucket count by the caller's hour or weekday: an hour outside the
      day has no bucket and counts 0. */
  function BucketOrZero(s: seq<nat>, k: int): nat {
    if 0 <= k < |s| then s[k] else 0
  }

  /** `get_temporal_anomaly_score` over the last 30 days. */
  method GetTemporalAnomalyScore(db: Database, userId: string, currentHour: int, currentWeekday: int, now: int)
      returns (r: real)
    ensures var rows := Window(db.accesses, db.devices, userId, now - 30 * 86400);
            r == AnomalyScore(|rows|, if 0 <= currentHour < 24 then CountHour(rows, currentHour) else 0,
                                      if 0 <= currentWeekday < 7 then CountDay(rows, currentWeekday) else 0)
    ensures 0.0 <= r <= 1.0
  {
    var p := GetAccessPatternData(db, userId, 30, now);
    PatternOfMeaning(Window(db.accesses, db.devices, userId, now - 30 * 86400), 30);
    r := AnomalyScore(p.totalAccesses, BucketOrZero(p.hourly, currentHour), BucketOrZero(p.daily, currentWeekday));
  }

  // ---------------------------------------------------------------------
  // Retention

  function Retained(rows: seq<DeviceAccess>, cutoff: int): (r: seq<DeviceAccess>)
    ensures forall a :: a in r <==> a in rows && a.timestamp >= cutoff
    ensures |r| <= |rows|
  {
    if rows == [] then []
    else if rows[0].timestamp >= cutoff then [rows[0]] + Retained(rows[1..], cutoff)
    else Retained(rows[1..], cutoff)
  }

  function CountOlder(rows: seq<DeviceAccess>, cutoff: int): (r: nat)
    ensures r <= |rows|
  {
    if rows == [] then 0
    else (if rows[0].timestamp < cutoff then 1 else 0) + CountOlder(rows[1..], cutoff)
  }

  /** The purge keeps every row it does not count as deleted. */
  lemma {:induction false} RetainedSize(rows: seq<DeviceAccess>, cutoff: int)
    ensures |Retained(rows, cutoff)| + CountOlder(rows, cutoff) == |rows|
    decreases |rows|
  {
    if rows != [] {
      RetainedSize(rows[1..], cutoff);
    }
  }

  lemma {:induction false} RetainedKeysUnique(rows: seq<DeviceAccess>, cutoff: int)
    requires AccessKeysUnique(rows)
    ensures AccessKeysUnique(Retained(rows, cutoff))
    decreases |rows|
  {
    if rows != [] {
      assert AccessKeysUnique(rows[1..]) by {
        forall i, j | 0 <= i < j < |rows[1..]| ensures !SameKey(rows[1..][i], rows[1..][j]) {
          assert rows[1..][i] == rows[i + 1] && rows[1..][j] == rows[j + 1];
        }
      }
      RetainedKeysUnique(rows[1..], cutoff);
      var rest := Retained(rows[1..], cutoff);
      if rows[0].timestamp >= cutoff {
        var r := [rows[0]] + rest;
        forall i, j | 0 <= i < j < |r| ensures !SameKey(r[i], r[j]) {
          if i == 0 {
            assert r[j] in rest;
            var k :| 0 <= k < |rows[1..]| && rows[1..][k] == r[j];
            assert rows[1..][k] == rows[k + 1];
          } else {
            assert r[i] == rest[i - 1] && r[j] == rest[j - 1];
          }
        }
      }
    }
  }

  function CleanupLog(deletedCount: nat, cutoff: int, daysToKeep: int): (r: AuditLog)
    ensures r.eventType == "access_cleanup" && r.category == "maintenance" && r.severity == Info
    ensures r.message == "Cleaned up " + NatToString(deletedCount) + " old device access records"
    ensures r.details.Some? && Get(r.details.value, "deleted_count") == Int(deletedCount)
    ensures Get(r.details.value, "days_kept") == Int(daysToKeep)
  {
    AuditLog("access_cleanup", "maintenance", Info, None, None, None,
      "Cleaned up " + NatToString(deletedCount) + " old device access records",
      Some(map["deleted_count" := Int(deletedCount), "cutoff_date" := Int(cutoff), "days_kept" := Int(daysToKeep)]),
      None, None)
  }

  /** `cleanup_old_accesses`: exactly the rows older than `now - daysToKeep`
      days are deleted, the others are kept, and the number deleted is
      returned and audited. */
  method CleanupOldAccesses(db: Database, daysToKeep: int, now: int) returns (deleted: nat)
    requires db.Valid()
    modifies db
    ensures db.Valid()
    ensures db.accesses == Retained(old(db.accesses), now - daysToKeep * 86400)
    ensures deleted == CountOlder(old(db.accesses), now - daysToKeep * 86400)
    ensures deleted + |db.accesses| == |old(db.accesses)|
    ensures db.auditLogs == old(db.auditLogs) + [CleanupLog(deleted, now - daysToKeep * 86400, daysToKeep)]
    ensures db.devices == old(db.devices) && db.assessments == old(db.assessments) && db.nextDeviceId == old(db.nextDeviceId)
  {
    var cutoff := now - daysToKeep * 86400;
    deleted := CountOlder(db.accesses, cutoff);
    RetainedSize(db.accesses, cutoff);
    RetainedKeysUnique(db.accesses, cutoff);
    db.accesses := Retained(db.accesses, cutoff);
    db.auditLogs := db.auditLogs + [CleanupLog(deleted, cutoff, daysToKeep)];
  }
}
