/** One recorded access of a device (models/device_access.py). The table is
    keyed by (device_id, timestamp). */
module DeviceAccesses {
  import opened Wrappers
  import opened Values

  /** The `location_data` JSON the API stores: `LocationData.dict()`. */
  datatype Location = Location(lat: Option<real>, lng: Option<real>, country: Option<string>, city: Option<string>)

  datatype DeviceAccess = DeviceAccess(
    deviceId: int,
    /** Seconds since the epoch, UTC. */
    timestamp: int,
    ipAddress: string,
    location: Option<Location>,
    asn: Option<string>,
    riskFactors: Option<Dict>,
    hardwareInfo: Option<Dict>,
    browserInfo: Option<Dict>)

  /** Two rows with the same (device_id, timestamp) violate the primary key. */
  predicate SameKey(a: DeviceAccess, b: DeviceAccess) {
    a.deviceId == b.deviceId && a.timestamp == b.timestamp
  }

  function Latitude(a: DeviceAccess): (r: Option<real>)
    ensures a.location.None? ==> r.None?
    ensures a.location.Some? ==> r == a.location.value.lat
  {
    if a.location.Some? then a.location.value.lat else None
  }

  function Longitude(a: DeviceAccess): (r: Option<real>)
    ensures a.location.None? ==> r.None?
    ensures a.location.Some? ==> r == a.location.value.lng
  {
    if a.location.Some? then a.location.value.lng else None
  }

  function Country(a: DeviceAccess): (r: Option<string>)
    ensures a.location.None? ==> r.None?
    ensures a.location.Some? ==> r == a.location.value.country
  {
    if a.location.Some? then a.location.value.country else None
  }

  function City(a: DeviceAccess): (r: Option<string>)
    ensures a.location.None? ==> r.None?
    ensures a.location.Some? ==> r == a.location.value.city
  {
    if a.location.Some? then a.location.value.city else None
  }

  /** `has_location`: both coordinates are present. */
  predicate HasLocation(a: DeviceAccess) {
    a.location.Some? && a.location.value.lat.Some? && a.location.value.lng.Some?
  }

  /** `get_coordinates` */
  function Coordinates(a: DeviceAccess): (r: Option<(real, real)>)
    ensures r.Some? <==> HasLocation(a)
    ensures r.Some? ==> Latitude(a) == Some(r.value.0) && Longitude(a) == Some(r.value.1)
  {
    if HasLocation(a) then Some((a.location.value.lat.value, a.location.value.lng.value)) else None
  }

  /** What `DeviceAccess.to_dict` reports. */
  datatype AccessInfo = AccessInfo(
    deviceId: int,
    timestamp: int,
    ipAddress: string,
    location: Option<Location>,
    asn: Option<string>,
    riskFactors: Option<Dict>,
    hardwareInfo: Option<Dict>,
    browserInfo: Option<Dict>)

  /** `to_dict` copies every field. */
  function ToDict(a: DeviceAccess): (r: AccessInfo)
    ensures r.deviceId == a.deviceId && r.timestamp == a.timestamp && r.ipAddress == a.ipAddress
    ensures r.location == a.location && r.asn == a.asn && r.riskFactors == a.riskFactors
    ensures r.hardwareInfo == a.hardwareInfo && r.browserInfo == a.browserInfo
  {
    AccessInfo(a.deviceId, a.timestamp, a.ipAddress, a.location, a.asn, a.riskFactors, a.hardwareInfo, a.browserInfo)
  }

  /** The number of rows that belong to a device. */
  function CountFor(rows: seq<DeviceAccess>, deviceId: int): (r: nat)
    ensures r <= |rows|
  {
    if rows == [] then 0
    else (if rows[0].deviceId == deviceId then 1 else 0) + CountFor(rows[1..], deviceId)
  }

  /** The rows that belong to a device, in stored order. */
  function RowsFor(rows: seq<DeviceAccess>, deviceId: int): (r: seq<DeviceAccess>)
    ensures forall i :: 0 <= i < |r| ==> r[i] in rows && r[i].deviceId == deviceId
    ensures forall x :: x in rows && x.deviceId == deviceId ==> x in r
  {
    if rows == [] then []
    else if rows[0].deviceId == deviceId then [rows[0]] + RowsFor(rows[1..], deviceId)
    else RowsFor(rows[1..], deviceId)
  }

  /** The device's access count is the number of its rows. */
  lemma {:induction false} CountIsRows(rows: seq<DeviceAccess>, deviceId: int)
    ensures CountFor(rows, deviceId) == |RowsFor(rows, deviceId)|
    decreases |rows|
  {
    if rows != [] {
      CountIsRows(rows[1..], deviceId);
    }
  }

  /** A device has no accesses exactly when no row names it. */
  lemma NoRowsIffNoneFor(rows: seq<DeviceAccess>, deviceId: int)
    ensures |RowsFor(rows, deviceId)| == 0 <==> forall a :: a in rows ==> a.deviceId != deviceId
  {
    var r := RowsFor(rows, deviceId);
    if |r| > 0 {
      assert r[0] in rows && r[0].deviceId == deviceId;
    }
  }
}
