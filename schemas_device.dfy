/** The device endpoints' request and response records and their field
    bounds (schemas/device.py), with the dicts `.dict()` makes of the nested
    records, which are what the validators and the access table receive. */
module DeviceSchemas {
  import opened Wrappers
  import opened Values
  import opened IpAddress
  import opened DeviceAccesses
  import opened TravelDetection
  import opened HardwareValidation
  import opened IdentitySchemas

  datatype LocationData = LocationData(lat: real, lng: real, country: Option<string>, city: Option<string>)

  /** A string field that is absent or at most `n` characters long. */
  predicate AtMost(s: Option<string>, n: nat) {
    s.None? || |s.value| <= n
  }

  /** Latitude in [-90, 90], longitude in [-180, 180], a country code of at
      most 3 and a city of at most 100 characters. */
  predicate ValidLocationData(l: LocationData) {
    -90.0 <= l.lat <= 90.0 && -180.0 <= l.lng <= 180.0 && AtMost(l.country, 3) && AtMost(l.city, 100)
  }

  /** `LocationData.dict()`, the stored `location_data`. */
  function LocationToStored(l: LocationData): (r: Location)
    ensures r.lat == Some(l.lat) && r.lng == Some(l.lng) && r.country == l.country && r.city == l.city
  {
    Location(Some(l.lat), Some(l.lng), l.country, l.city)
  }

  /** An access stored with an accepted location has coordinates the travel
      detector reads back unchanged and accepts. */
  lemma StoredLocationIsUsable(l: LocationData, a: DeviceAccess)
    requires ValidLocationData(l)
    requires a.location == Some(LocationToStored(l))
    ensures HasLocation(a) && Coordinates(a) == Some((l.lat, l.lng))
    ensures ValidateCoordinates(l.lat, l.lng)
  {
  }

  datatype HardwareInfo = HardwareInfo(
    cpuCores: Option<int>,
    ramGb: Option<real>,
    screenResolution: Option<string>,
    platform: Option<string>,
    timezone: Option<string>,
    language: Option<string>)

  /** 1 to 128 cores, 0.1 to 1024 GB, and the string length limits. */
  predicate ValidHardwareInfo(h: HardwareInfo) {
    (h.cpuCores.None? || 1 <= h.cpuCores.value <= 128) &&
    (h.ramGb.None? || 0.1 <= h.ramGb.value <= 1024.0) &&
    AtMost(h.screenResolution, 20) && AtMost(h.platform, 50) && AtMost(h.timezone, 20) && AtMost(h.language, 10)
  }

  function IntOrNull(v: Option<int>): Value {
    if v.Some? then Int(v.value) else Null
  }

  function RealOrNull(v: Option<real>): Value {
    if v.Some? then Float(v.value) else Null
  }

  function StrOrNull(v: Option<string>): Value {
    if v.Some? then Str(v.value) else Null
  }

  /** `HardwareInfo.dict()`: every field, with None as null. */
  function HardwareDict(h: HardwareInfo): (r: Dict)
    ensures r.Keys == {"cpu_cores", "ram_gb", "screen_resolution", "platform", "timezone", "language"}
    ensures r["cpu_cores"] == IntOrNull(h.cpuCores) && r["ram_gb"] == RealOrNull(h.ramGb)
    ensures r["screen_resolution"] == StrOrNull(h.screenResolution) && r["platform"] == StrOrNull(h.platform)
    ensures r["timezone"] == StrOrNull(h.timezone) && r["language"] == StrOrNull(h.language)
  {
    map["cpu_cores" := IntOrNull(h.cpuCores), "ram_gb" := RealOrNull(h.ramGb),
      "screen_resolution" := StrOrNull(h.screenResolution), "platform" := StrOrNull(h.platform),
      "timezone" := StrOrNull(h.timezone), "language" := StrOrNull(h.language)]
  }

  /** On an accepted `HardwareInfo` the validator never raises and never
      sees an empty dict, and its language check cannot fire: the schema
      already limits the language to 10 characters. */
  lemma SchemaHardwareIsChecked(h: HardwareInfo, minCpuCores: int, minRamGb: real)
    requires ValidHardwareInfo(h)
    ensures LanguageFactors(HardwareDict(h)) == Ok([])
    ensures HardwareVerdict(Some(HardwareDict(h)), minCpuCores, minRamGb).Ok?
    ensures HardwareVerdict(Some(HardwareDict(h)), minCpuCores, minRamGb).value.Checked?
  {
    var hw := HardwareDict(h);
    assert "cpu_cores" in hw;
    assert Get(hw, "language") == StrOrNull(h.language);
  }

  /** On an accepted `HardwareInfo`, the core count is reported missing
      exactly when it is absent and insufficient exactly when it is below
      the minimum; the same holds for the RAM. */
  lemma SchemaHardwareFindings(h: HardwareInfo, minCpuCores: int, minRamGb: real)
    requires ValidHardwareInfo(h)
    ensures CpuFinding(HardwareDict(h), minCpuCores).Some? <==>
      (h.cpuCores.None? || h.cpuCores.value < minCpuCores)
    ensures CpuFinding(HardwareDict(h), minCpuCores).Some? ==>
      (CpuFinding(HardwareDict(h), minCpuCores).value.issue == MissingCpu <==> h.cpuCores.None?)
    ensures RamFinding(HardwareDict(h), minRamGb).Some? <==>
      (h.ramGb.None? || h.ramGb.value < minRamGb)
    ensures RamFinding(HardwareDict(h), minRamGb).Some? ==>
      (RamFinding(HardwareDict(h), minRamGb).value.issue == MissingRam <==> h.ramGb.None?)
  {
    var hw := HardwareDict(h);
    assert Get(hw, "cpu_cores") == IntOrNull(h.cpuCores);
    assert Get(hw, "ram_gb") == RealOrNull(h.ramGb);
  }

  /** The schema admits one core and 0.1 GB, which the validator's default
      minimums of 2 cores and 4 GB flag as insufficient. */
  lemma SchemaAdmitsWeakHardware()
    ensures var h := HardwareInfo(Some(1), Some(0.1), None, None, None, None);
      ValidHardwareInfo(h) &&
      CoreIssues(HardwareDict(h), 2, 4.0) == [InsufficientCpu, InsufficientRam]
  {
    var h := HardwareInfo(Some(1), Some(0.1), None, None, None, None);
    var hw := HardwareDict(h);
    SchemaHardwareFindings(h, 2, 4.0);
    assert Get(hw, "screen_resolution") == Null;
    assert ResolutionFinding(hw) == None;
  }

  datatype BrowserInfo = BrowserInfo(
    userAgent: string,
    hasPlugins: Option<bool>,
    pluginCount: Option<int>,
    hasWebgl: Option<bool>,
    hasCanvas: Option<bool>,
    screenDepth: Option<int>,
    languages: Option<seq<string>>,
    navigatorProperties: Option<Dict>)

  /** A User-Agent of 1 to 1000 characters, no negative plugin count and a
      colour depth from 1 to 64. */
  predicate ValidBrowserInfo(b: BrowserInfo) {
    1 <= |b.userAgent| <= 1000 && (b.pluginCount.None? || b.pluginCount.value >= 0) &&
    (b.screenDepth.None? || 1 <= b.screenDepth.value <= 64)
  }

  datatype DeviceRegistrationRequest = DeviceRegistrationRequest(
    userId: string,
    deviceFingerprint: string,
    hardwareInfo: Option<HardwareInfo>,
    browserInfo: Option<BrowserInfo>)

  /** A user id and a fingerprint of 1 to 255 characters each, and valid
      nested records. */
  predicate ValidRegistrationRequest(q: DeviceRegistrationRequest) {
    1 <= |q.userId| <= 255 && 1 <= |q.deviceFingerprint| <= 255 &&
    (q.hardwareInfo.None? || ValidHardwareInfo(q.hardwareInfo.value)) &&
    (q.browserInfo.None? || ValidBrowserInfo(q.browserInfo.value))
  }

  datatype DeviceAccessRequest = DeviceAccessRequest(
    deviceId: int,
    ipAddress: string,
    locationData: Option<LocationData>,
    asn: Option<string>,
    hardwareInfo: Option<HardwareInfo>,
    browserInfo: Option<BrowserInfo>)

  /** A device id of at least 1, an address that parses, an ASN of at most
      50 characters and valid nested records. */
  predicate ValidAccessRequest(q: DeviceAccessRequest) {
    q.deviceId >= 1 && ValidateIpAddress(q.ipAddress).Ok? && AtMost(q.asn, 50) &&
    (q.locationData.None? || ValidLocationData(q.locationData.value)) &&
    (q.hardwareInfo.None? || ValidHardwareInfo(q.hardwareInfo.value)) &&
    (q.browserInfo.None? || ValidBrowserInfo(q.browserInfo.value))
  }

  /** The trust update: an admin of at most 255 characters. */
  predicate ValidTrustUpdate(isTrusted: bool, adminUser: Option<string>) {
    AtMost(adminUser, 255)
  }

  /** The counts the responses carry: an access count, the device totals
      and the history totals are never negative and the analysis period is
      at least one day. */
  predicate ValidDeviceInfoCount(accessCount: int) {
    accessCount >= 0
  }

  predicate ValidDeviceList(totalDevices: int, trustedDevices: int) {
    totalDevices >= 0 && trustedDevices >= 0
  }

  predicate ValidDeviceHistory(totalAccesses: int, analysisPeriodDays: int) {
    totalAccesses >= 0 && analysisPeriodDays >= 1
  }

  /** The sample access request of the schema is valid: its address is a
      dotted quad and every nested record keeps to its bounds. */
  lemma ExampleAccessRequest()
    ensures var q := DeviceAccessRequest(1, DottedQuad(203, 0, 113, 1),
        Some(LocationData(35.6762, 139.6503, Some("JP"), Some("Tokyo"))), Some("AS2516"),
        Some(HardwareInfo(Some(8), Some(16.0), Some("2560x1440"), None, None, None)),
        Some(BrowserInfo("Mozilla/5.0 (Windows NT 10.0; Win64; x64) AppleWebKit/537.36", None, None, None, None, None, None, None)));
      ValidAccessRequest(q)
  {
    DottedQuadValid(203, 0, 113, 1);
  }
}
