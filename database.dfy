/** The SQL session the services share (core/database.py): the four tables
    and the constraints the schema declares on them. */
module Store {
  import opened Wrappers
  import opened Devices
  import opened DeviceAccesses
  import opened Assessments
  import opened AuditLogs

  /** The device with this id, if any. */
  function FindById(ds: seq<Device>, id: int): (r: Option<Device>)
    ensures r.Some? ==> r.value in ds && r.value.id == id
    ensures r.None? <==> forall d :: d in ds ==> d.id != id
  {
    if ds == [] then None
    else if ds[0].id == id then Some(ds[0])
    else FindById(ds[1..], id)
  }

  /** The device registered for this (user, fingerprint) pair, if any. */
  function FindByPair(ds: seq<Device>, userId: string, fingerprint: string): (r: Option<Device>)
    ensures r.Some? ==> r.value in ds && r.value.userId == userId && r.value.fingerprint == fingerprint
    ensures r.None? <==> forall d :: d in ds ==> !(d.userId == userId && d.fingerprint == fingerprint)
  {
    if ds == [] then None
    else if ds[0].userId == userId && ds[0].fingerprint == fingerprint then Some(ds[0])
    else FindByPair(ds[1..], userId, fingerprint)
  }

  /** The access stored under this primary key, if any. */
  function FindAccess(rows: seq<DeviceAccess>, deviceId: int, timestamp: int): (r: Option<DeviceAccess>)
    ensures r.Some? ==> r.value in rows && r.value.deviceId == deviceId && r.value.timestamp == timestamp
    ensures r.None? <==> forall a :: a in rows ==> !(a.deviceId == deviceId && a.timestamp == timestamp)
  {
    if rows == [] then None
    else if rows[0].deviceId == deviceId && rows[0].timestamp == timestamp then Some(rows[0])
    else FindAccess(rows[1..], deviceId, timestamp)
  }

  /** At most one device per id and per (user, fingerprint) pair
      (`uq_user_device_fingerprint`), and every id below the next one. */
  predicate DevicesValid(ds: seq<Device>, nextId: nat) {
    (forall i, j :: 0 <= i < |ds| && 0 <= j < |ds| && i != j ==> ds[i].id != ds[j].id) &&
    (forall i, j :: 0 <= i < |ds| && 0 <= j < |ds| && i != j ==>
      !(ds[i].userId == ds[j].userId && ds[i].fingerprint == ds[j].fingerprint)) &&
    (forall i :: 0 <= i < |ds| ==> ds[i].id < nextId)
  }

  /** The composite primary key (device_id, timestamp) of `device_access`. */
  predicate AccessKeysUnique(rows: seq<DeviceAccess>) {
    forall i, j :: 0 <= i < j < |rows| ==> !SameKey(rows[i], rows[j])
  }

  /** `request_id` is unique across assessments. */
  predicate RequestIdsUnique(rows: seq<RiskAssessment>) {
    forall i, j :: 0 <= i < j < |rows| ==> rows[i].requestId != rows[j].requestId
  }

  predicate HasRequestId(rows: seq<RiskAssessment>, requestId: string) {
    exists i :: 0 <= i < |rows| && rows[i].requestId == requestId
  }

  class Database {
    var devices: seq<Device>
    var accesses: seq<DeviceAccess>
    var assessments: seq<RiskAssessment>
    var auditLogs: seq<AuditLog>
    /** The id the next inserted device receives. */
    var nextDeviceId: nat

    ghost predicate Valid()
      reads this
    {
      DevicesValid(devices, nextDeviceId) && AccessKeysUnique(accesses) && RequestIdsUnique(assessments)
    }

    constructor ()
      ensures Valid()
      ensures devices == [] && accesses == [] && assessments == [] && auditLogs == []
    {
      devices := [];
      accesses := [];
      assessments := [];
      auditLogs := [];
      nextDeviceId := 1;
    }
  }

  /** A row with a fresh request id keeps request ids unique. */
  lemma StoreAssessmentValid(rows: seq<RiskAssessment>, record: RiskAssessment)
    requires RequestIdsUnique(rows) && !HasRequestId(rows, record.requestId)
    ensures RequestIdsUnique(rows + [record])
  {
    var rows' := rows + [record];
    forall i, j | 0 <= i < j < |rows'|
      ensures rows'[i].requestId != rows'[j].requestId
    {
      if j == |rows| {
        assert rows'[i] == rows[i];
      }
    }
  }


  /** Appending a device with a fresh id and an unused pair keeps the
      registry's constraints. */
  lemma AppendDeviceValid(ds: seq<Device>, nextId: nat, d: Device)
    requires DevicesValid(ds, nextId)
    requires d.id == nextId
    requires FindByPair(ds, d.userId, d.fingerprint).None?
    ensures DevicesValid(ds + [d], nextId + 1)
  {
    var ds' := ds + [d];
    forall i, j | 0 <= i < |ds'| && 0 <= j < |ds'| && i != j
      ensures ds'[i].id != ds'[j].id
      ensures !(ds'[i].userId == ds'[j].userId && ds'[i].fingerprint == ds'[j].fingerprint)
    {
      if j == |ds| {
        assert ds'[i] == ds[i] && ds[i] in ds;
      } else if i == |ds| {
        assert ds'[j] == ds[j] && ds[j] in ds;
      } else {
        assert ds'[i] == ds[i] && ds'[j] == ds[j];
      }
    }
  }

  /** Removing rows keeps every constraint that forbids pairs of rows. */
  lemma RemoveDeviceValid(ds: seq<Device>, nextId: nat, k: int)
    requires DevicesValid(ds, nextId)
    requires 0 <= k < |ds|
    ensures DevicesValid(ds[..k] + ds[k + 1..], nextId)
  {
    var ds' := ds[..k] + ds[k + 1..];
    forall i | 0 <= i < |ds'|
      ensures ds'[i] == ds[if i < k then i else i + 1]
    {
    }
  }
}
