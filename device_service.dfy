/** The device registry (services/device_service.py): create-or-get under
    the (user, fingerprint) uniqueness constraint, trust updates, cascade
    delete and the read-only queries. */
module DeviceRegistry {
  import opened Wrappers
  import opened Values
  import opened Strings
  import opened Devices
  import opened DeviceAccesses
  import opened AuditLogs
  import opened Store
  import Sorting

  /** A fingerprint as the audit trail shows it: its first 20 characters
      followed by "...". */
  function Masked(fingerprint: string): (r: string)
    ensures |r| == (if |fingerprint| < 20 then |fingerprint| else 20) + 3
    ensures r[..|r| - 3] == fingerprint[..|r| - 3] && r[|r| - 3..] == "..."
  {
    var n := if |fingerprint| < 20 then |fingerprint| else 20;
    var r := fingerprint[..n] + "...";
    assert r[..n] == fingerprint[..n];
    r
  }

  /** Whole days between creation and the last update (`timedelta.days`
      floors), 0 when the device was never updated. */
  function AgeDays(createdAt: int, updatedAt: Option<int>): (r: int)
    ensures updatedAt.None? ==> r == 0
    ensures updatedAt.Some? ==> r * 86400 <= updatedAt.value - createdAt < (r + 1) * 86400
  {
    if updatedAt.Some? then (updatedAt.value - createdAt) / 86400 else 0
  }

  function DeviceCreatedLog(deviceId: nat, userId: string, fingerprint: string): (r: AuditLog)
    ensures r.eventType == "device_created" && r.category == "security" && r.severity == Info
    ensures r.userId == Some(userId) && r.message == "New device registered for user " + userId
    ensures r.details == Some(map["device_id" := Int(deviceId), "device_fingerprint" := Str(Masked(fingerprint)),
                                  "trusted" := Bool(false)])
  {
    AuditLog("device_created", "security", Info, None, Some(userId), None,
      "New device registered for user " + userId,
      Some(map["device_id" := Int(deviceId), "device_fingerprint" := Str(Masked(fingerprint)), "trusted" := Bool(false)]),
      None, None)
  }

  function DeviceAccessedLog(d: Device): (r: AuditLog)
    reads d
    ensures r.eventType == "device_accessed" && r.category == "security" && r.severity == Info
    ensures r.userId == Some(d.userId) && r.message == "Access from known device for user " + d.userId
    ensures r.details.Some? && r.details.value.Keys == {"device_id", "device_fingerprint", "trusted", "device_age_days"}
    ensures Get(r.details.value, "trusted") == Bool(d.isTrusted)
    ensures Get(r.details.value, "device_age_days") == Int(AgeDays(d.createdAt, d.updatedAt))
  {
    AuditLog("device_accessed", "security", Info, None, Some(d.userId), None,
      "Access from known device for user " + d.userId,
      Some(map["device_id" := Int(d.id), "device_fingerprint" := Str(Masked(d.fingerprint)),
               "trusted" := Bool(d.isTrusted), "device_age_days" := Int(AgeDays(d.createdAt, d.updatedAt))]),
      None, None)
  }

  function BoolName(b: bool): string {
    if b then "True" else "False"
  }

  /** A revocation is logged as a warning, a grant as information. */
  function TrustUpdatedLog(d: Device, oldTrusted: bool, newTrusted: bool, adminUser: Option<string>): (r: AuditLog)
    ensures r.eventType == "device_trust_updated" && r.category == "security"
    ensures r.severity == (if newTrusted then Info else Warn)
    ensures r.userId == Some(d.userId)
    ensures r.message == "Device trust status changed: " + BoolName(oldTrusted) + " -> " + BoolName(newTrusted)
    ensures r.details.Some? && Get(r.details.value, "old_trusted") == Bool(oldTrusted)
    ensures Get(r.details.value, "new_trusted") == Bool(newTrusted)
    ensures Get(r.details.value, "admin_user") == (if adminUser.Some? then Str(adminUser.value) else Null)
  {
    AuditLog("device_trust_updated", "security", if newTrusted then Info else Warn, None, Some(d.userId), None,
      "Device trust status changed: " + BoolName(oldTrusted) + " -> " + BoolName(newTrusted),
      Some(map["device_id" := Int(d.id), "old_trusted" := Bool(oldTrusted), "new_trusted" := Bool(newTrusted),
               "admin_user" := (if adminUser.Some? then Str(adminUser.value) else Null),
               "device_fingerprint" := Str(Masked(d.fingerprint))]),
      None, None)
  }

  function DeviceDeletedLog(d: Device, accessCount: nat): (r: AuditLog)
    reads d
    ensures r.eventType == "device_deleted" && r.category == "security" && r.severity == Warn
    ensures r.userId == Some(d.userId) && r.message == "Device deleted for user " + d.userId
    ensures r.details.Some? && Get(r.details.value, "was_trusted") == Bool(d.isTrusted)
    ensures Get(r.details.value, "access_count") == Int(accessCount)
  {
    AuditLog("device_deleted", "security", Warn, None, Some(d.userId), None,
      "Device deleted for user " + d.userId,
      Some(map["device_id" := Int(d.id), "device_fingerprint" := Str(Masked(d.fingerprint)),
               "was_trusted" := Bool(d.isTrusted), "access_count" := Int(accessCount)]),
      None, None)
  }

  /** `create_or_get_device`: the insert succeeds for an unused pair; the
      unique-constraint violation otherwise is recovered by returning the
      stored device. Exactly one audit row is written either way. */
  method CreateOrGetDevice(db: Database, userId: string, fingerprint: string, now: int)
      returns (device: Device, isNew: bool)
    requires db.Valid()
    modifies db
    ensures db.Valid()
    ensures device.userId == userId && device.fingerprint == fingerprint
    ensures isNew <==> FindByPair(old(db.devices), userId, fingerprint).None?
    ensures isNew ==> fresh(device) && !device.isTrusted && device.updatedAt.None? && device.createdAt == now
    ensures isNew ==> device.id == old(db.nextDeviceId) && db.devices == old(db.devices) + [device]
    ensures isNew ==> db.auditLogs == old(db.auditLogs) + [DeviceCreatedLog(device.id, userId, fingerprint)]
    ensures !isNew ==> Some(device) == FindByPair(old(db.devices), userId, fingerprint)
    ensures !isNew ==> db.devices == old(db.devices) && db.nextDeviceId == old(db.nextDeviceId)
    ensures !isNew ==> db.auditLogs == old(db.auditLogs) + [DeviceAccessedLog(device)]
    ensures FindByPair(db.devices, userId, fingerprint) == Some(device)
    ensures db.accesses == old(db.accesses) && db.assessments == old(db.assessments)
  {
    var existing := FindByPair(db.devices, userId, fingerprint);
    if existing.None? {
      device := new Device(db.nextDeviceId, userId, fingerprint, now);
      AppendDeviceValid(db.devices, db.nextDeviceId, device);
      PairAfterAppend(db.devices, device);
      db.devices := db.devices + [device];
      db.nextDeviceId := db.nextDeviceId + 1;
      db.auditLogs := db.auditLogs + [DeviceCreatedLog(device.id, userId, fingerprint)];
      isNew := true;
    } else {
      device := existing.value;
      PairFound(db.devices, db.nextDeviceId, device);
      db.auditLogs := db.auditLogs + [DeviceAccessedLog(device)];
      isNew := false;
    }
  }

  /** After appending a device whose pair was unused, the lookup finds it. */
  lemma {:induction false} PairAfterAppend(ds: seq<Device>, d: Device)
    requires FindByPair(ds, d.userId, d.fingerprint).None?
    ensures FindByPair(ds + [d], d.userId, d.fingerprint) == Some(d)
    decreases |ds|
  {
    if ds == [] {
      assert ds + [d] == [d];
    } else {
      assert (ds + [d])[1..] == ds[1..] + [d];
      PairAfterAppend(ds[1..], d);
    }
  }

  /** In a valid registry the lookup by pair finds the only device with it. */
  lemma PairFound(ds: seq<Device>, nextId: nat, d: Device)
    requires DevicesValid(ds, nextId)
    requires FindByPair(ds, d.userId, d.fingerprint) == Some(d)
    ensures forall e :: e in ds && e.userId == d.userId && e.fingerprint == d.fingerprint ==> e == d
  {
    forall e | e in ds && e.userId == d.userId && e.fingerprint == d.fingerprint
      ensures e == d
    {
      var i :| 0 <= i < |ds| && ds[i] == e;
      var j :| 0 <= j < |ds| && ds[j] == d;
      assert ds[i].userId == ds[j].userId && ds[i].fingerprint == ds[j].fingerprint;
    }
  }

  /** Registering the same pair twice yields the same device, the second
      time as a known one, and leaves a single row for the pair. */
  method RegisterTwice(db: Database, userId: string, fingerprint: string, t1: int, t2: int)
      returns (first: Device, second: Device, isNew: bool)
    requires db.Valid()
    modifies db
    ensures first == second && first.id == second.id && !isNew
    ensures db.Valid()
  {
    var n1;
    first, n1 := CreateOrGetDevice(db, userId, fingerprint, t1);
    second, isNew := CreateOrGetDevice(db, userId, fingerprint, t2);
  }

  /** `update_trust_status`: a missing id changes nothing; otherwise only
      that device's trust (and, when it changes, its update time) is set,
      and the change is audited. */
  method UpdateTrustStatus(db: Database, deviceId: int, isTrusted: bool, adminUser: Option<string>, now: int)
      returns (r: Option<Device>)
    requires db.Valid()
    modifies db, set d | d in db.devices && d.id == deviceId
    ensures db.Valid()
    ensures r == FindById(old(db.devices), deviceId)
    ensures r.None? ==> db.auditLogs == old(db.auditLogs)
    ensures r.Some? ==> r.value.isTrusted == isTrusted
    ensures r.Some? ==> r.value.updatedAt == if old(r.value.isTrusted) != isTrusted then Some(now) else old(r.value.updatedAt)
    ensures r.Some? ==> db.auditLogs == old(db.auditLogs) + [TrustUpdatedLog(r.value, old(r.value.isTrusted), isTrusted, adminUser)]
    ensures db.devices == old(db.devices) && db.nextDeviceId == old(db.nextDeviceId)
    ensures db.accesses == old(db.accesses) && db.assessments == old(db.assessments)
  {
    r := FindById(db.devices, deviceId);
    if r.Some? {
      var d := r.value;
      var oldTrusted := d.isTrusted;
      d.SetTrusted(isTrusted, now);
      db.auditLogs := db.auditLogs + [TrustUpdatedLog(d, oldTrusted, isTrusted, adminUser)];
    }
  }

  /** The position of the device with this id. */
  function IndexOfId(ds: seq<Device>, id: int): (r: Option<nat>)
    ensures r.Some? ==> r.value < |ds| && ds[r.value].id == id
    ensures r.None? <==> forall d :: d in ds ==> d.id != id
  {
    if ds == [] then None
    else if ds[0].id == id then Some(0)
    else
      var k := IndexOfId(ds[1..], id);
      if k.Some? then Some(k.value + 1) else None
  }

  /** The access rows that do not belong to the device. */
  function WithoutDevice(rows: seq<DeviceAccess>, deviceId: int): (r: seq<DeviceAccess>)
    ensures forall a :: a in r <==> a in rows && a.deviceId != deviceId
    ensures |r| + CountFor(rows, deviceId) == |rows|
  {
    if rows == [] then []
    else if rows[0].deviceId == deviceId then WithoutDevice(rows[1..], deviceId)
    else [rows[0]] + WithoutDevice(rows[1..], deviceId)
  }

  /** A subsequence of rows with distinct keys has distinct keys. */
  lemma {:induction false} WithoutDeviceKeysUnique(rows: seq<DeviceAccess>, deviceId: int)
    requires AccessKeysUnique(rows)
    ensures AccessKeysUnique(WithoutDevice(rows, deviceId))
    decreases |rows|
  {
    if rows != [] {
      TailKeysUnique(rows);
      WithoutDeviceKeysUnique(rows[1..], deviceId);
      if rows[0].deviceId != deviceId {
        ConsKeysUnique(rows[0], WithoutDevice(rows[1..], deviceId));
      }
    }
  }

  /** The rows after the first keep distinct keys, none of them the first's. */
  lemma TailKeysUnique(rows: seq<DeviceAccess>)
    requires rows != [] && AccessKeysUnique(rows)
    ensures AccessKeysUnique(rows[1..])
    ensures forall a :: a in rows[1..] ==> !SameKey(rows[0], a)
  {
    forall i, j | 0 <= i < j < |rows[1..]| ensures !SameKey(rows[1..][i], rows[1..][j]) {
      assert rows[1..][i] == rows[i + 1] && rows[1..][j] == rows[j + 1];
    }
    forall a | a in rows[1..] ensures !SameKey(rows[0], a) {
      var k :| 0 <= k < |rows[1..]| && rows[1..][k] == a;
      assert rows[1..][k] == rows[k + 1];
    }
  }

  /** A row whose key no other row has, before rows with distinct keys. */
  lemma ConsKeysUnique(x: DeviceAccess, rest: seq<DeviceAccess>)
    requires AccessKeysUnique(rest)
    requires forall a :: a in rest ==> !SameKey(x, a)
    ensures AccessKeysUnique([x] + rest)
  {
    var r := [x] + rest;
    forall i, j | 0 <= i < j < |r| ensures !SameKey(r[i], r[j]) {
      if i == 0 {
        assert r[j] == rest[j - 1];
      } else {
        assert r[i] == rest[i - 1] && r[j] == rest[j - 1];
      }
    }
  }

  /** `delete_device`: a missing id changes nothing and returns false;
      otherwise the device and, by the cascade, all its accesses are removed
      and the deletion is audited with the number of accesses it had. */
  method DeleteDevice(db: Database, deviceId: int) returns (deleted: bool)
    requires db.Valid()
    modifies db
    ensures db.Valid()
    ensures deleted <==> FindById(old(db.devices), deviceId).Some?
    ensures !deleted ==> db.devices == old(db.devices) && db.accesses == old(db.accesses) && db.auditLogs == old(db.auditLogs)
    ensures deleted ==> forall d :: d in db.devices <==> d in old(db.devices) && d.id != deviceId
    ensures deleted ==> db.accesses == WithoutDevice(old(db.accesses), deviceId)
    ensures deleted ==> (db.auditLogs == old(db.auditLogs) +
      [DeviceDeletedLog(FindById(old(db.devices), deviceId).value, CountFor(old(db.accesses), deviceId))])
    ensures db.assessments == old(db.assessments) && db.nextDeviceId == old(db.nextDeviceId)
  {
    var k := IndexOfId(db.devices, deviceId);
    if k.None? {
      deleted := false;
      return;
    }
    var i := k.value;
    var d := db.devices[i];
    assert FindById(db.devices, deviceId) == Some(d) by {
      IdUnique(db.devices, db.nextDeviceId, i);
    }
    db.auditLogs := db.auditLogs + [DeviceDeletedLog(d, CountFor(db.accesses, deviceId))];
    RemoveDeviceValid(db.devices, db.nextDeviceId, i);
    RemoveAtMembers(db.devices, db.nextDeviceId, i);
    var ds' := db.devices[..i] + db.devices[i + 1..];
    WithoutDeviceKeysUnique(db.accesses, deviceId);
    db.devices := ds';
    db.accesses := WithoutDevice(db.accesses, deviceId);
    deleted := true;
  }

  /** In a valid registry the device at a position is the one the lookup by
      its id finds. */
  lemma IdUnique(ds: seq<Device>, nextId: nat, i: int)
    requires DevicesValid(ds, nextId)
    requires 0 <= i < |ds|
    ensures FindById(ds, ds[i].id) == Some(ds[i])
  {
    var r := FindById(ds, ds[i].id);
    assert ds[i] in ds;
    var j :| 0 <= j < |ds| && ds[j] == r.value;
    assert ds[j].id == ds[i].id;
  }

  /** Removing the device at position `i` leaves exactly the devices with
      other ids. */
  lemma RemoveAtMembers(ds: seq<Device>, nextId: nat, i: int)
    requires DevicesValid(ds, nextId)
    requires 0 <= i < |ds|
    ensures forall e :: e in ds[..i] + ds[i + 1..] ==> e in ds && e.id != ds[i].id
    ensures forall e :: e in ds && e.id != ds[i].id ==> e in ds[..i] + ds[i + 1..]
  {
    var ds' := ds[..i] + ds[i + 1..];
    forall e | e in ds' ensures e in ds && e.id != ds[i].id {
      var j :| 0 <= j < |ds'| && ds'[j] == e;
      var j' := if j < i then j else j + 1;
      assert ds[j'] == e && j' != i;
      assert ds[j'].id != ds[i].id;
    }
    forall e | e in ds && e.id != ds[i].id ensures e in ds' {
      var j :| 0 <= j < |ds| && ds[j] == e;
      assert ds'[if j < i then j else j - 1] == e;
    }
  }

  /** The user's devices, in stored order. */
  function UserDevices(ds: seq<Device>, userId: string): (r: seq<Device>)
    ensures forall d :: d in r ==> d in ds && d.userId == userId
    ensures forall d :: d in ds && d.userId == userId ==> d in r
    ensures |r| <= |ds|
  {
    if ds == [] then []
    else if ds[0].userId == userId then [ds[0]] + UserDevices(ds[1..], userId)
    else UserDevices(ds[1..], userId)
  }

  /** The user's trusted devices, in stored order. */
  function TrustedOf(ds: seq<Device>, userId: string): (r: seq<Device>)
    reads set d | d in ds
    ensures forall d :: d in r ==> d in ds && d.userId == userId && d.isTrusted
    ensures forall d :: d in ds && d.userId == userId && d.isTrusted ==> d in r
    ensures |r| <= |UserDevices(ds, userId)|
  {
    if ds == [] then []
    else if ds[0].userId == userId && ds[0].isTrusted then [ds[0]] + TrustedOf(ds[1..], userId)
    else TrustedOf(ds[1..], userId)
  }

  /** `count_trusted_devices`: the number of the user's devices whose trust
      flag is set. */
  function CountTrusted(ds: seq<Device>, userId: string): (r: nat)
    reads set d | d in ds
    ensures r == |TrustedOf(ds, userId)|
    ensures r <= |UserDevices(ds, userId)|
    ensures r == 0 <==> forall d :: d in ds && d.userId == userId ==> !d.isTrusted
  {
    if ds == [] then 0
    else (if ds[0].userId == userId && ds[0].isTrusted then 1 else 0) + CountTrusted(ds[1..], userId)
  }

  function CountTrustedDevices(db: Database, userId: string): (r: nat)
    reads db, set d | d in db.devices
    ensures r == |TrustedOf(db.devices, userId)|
    ensures r <= |db.devices|
    ensures r == 0 <==> forall d :: d in db.devices && d.userId == userId ==> !d.isTrusted
  {
    CountTrusted(db.devices, userId)
  }

  /** `is_device_new` */
  function IsDeviceNew(db: Database, userId: string, fingerprint: string): (r: bool)
    reads db
    ensures r <==> forall d :: d in db.devices ==> !(d.userId == userId && d.fingerprint == fingerprint)
  {
    FindByPair(db.devices, userId, fingerprint).None?
  }

  function CreatedKey(d: Device): Option<int> {
    Some(d.createdAt)
  }

  /** `get_devices_by_user`: exactly the user's devices, newest first. */
  function GetDevicesByUser(db: Database, userId: string): (r: seq<Device>)
    reads db
    ensures forall d :: d in r ==> d in db.devices && d.userId == userId
    ensures forall d :: d in db.devices && d.userId == userId ==> d in r
    ensures multiset(r) == multiset(UserDevices(db.devices, userId))
    ensures forall i, j :: 0 <= i < j < |r| ==> r[i].createdAt >= r[j].createdAt
  {
    var mine := UserDevices(db.devices, userId);
    var r := Sorting.SortDesc(mine, CreatedKey);
    Sorting.SortDescSorted(mine, CreatedKey);
    assert forall d :: d in r ==> d in multiset(mine);
    assert forall d :: d in mine ==> d in multiset(r);
    assert forall i, j :: 0 <= i < j < |r| ==> Sorting.RanksBefore(CreatedKey(r[i]), CreatedKey(r[j]));
    r
  }
}
