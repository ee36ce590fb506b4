/** A registered device (models/device.py). The id, owner, fingerprint and
    creation time never change after the insert; trust and the last update
    time are updated in place. */
module Devices {
  import opened Wrappers
  import DeviceAccesses

  class Device {
    const id: nat
    const userId: string
    const fingerprint: string
    /** Set by the server default at insertion (seconds since the epoch). */
    const createdAt: int
    var isTrusted: bool
    var updatedAt: Option<int>

    /** A freshly inserted row: untrusted and never updated. */
    constructor (id: nat, userId: string, fingerprint: string, now: int)
      ensures this.id == id && this.userId == userId && this.fingerprint == fingerprint
      ensures createdAt == now
      ensures !isTrusted && updatedAt.None?
    {
      this.id := id;
      this.userId := userId;
      this.fingerprint := fingerprint;
      this.createdAt := now;
      isTrusted := false;
      updatedAt := None;
    }

    /** `mark_trusted`: only the trust flag and the update time change. */
    method MarkTrusted(now: int)
      modifies this
      ensures isTrusted && updatedAt == Some(now)
    {
      isTrusted := true;
      updatedAt := Some(now);
    }

    /** `revoke_trust`: only the trust flag and the update time change. */
    method RevokeTrust(now: int)
      modifies this
      ensures !isTrusted && updatedAt == Some(now)
    {
      isTrusted := false;
      updatedAt := Some(now);
    }

    /** Assigning `is_trusted` through the ORM: `updated_at` is refreshed by
        its `onupdate` default only when the value actually changes. */
    method SetTrusted(value: bool, now: int)
      modifies this
      ensures isTrusted == value
      ensures updatedAt == if old(isTrusted) != value then Some(now) else old(updatedAt)
    {
      if isTrusted != value {
        updatedAt := Some(now);
      }
      isTrusted := value;
    }

    /** `to_dict`: the device's fields and the number of its accesses. */
    function ToDict(accesses: seq<DeviceAccesses.DeviceAccess>): (r: DeviceInfo)
      reads this
      ensures r.deviceId == id && r.userId == userId && r.fingerprint == fingerprint
      ensures r.isTrusted == isTrusted && r.createdAt == createdAt && r.updatedAt == updatedAt
      ensures r.accessCount == |DeviceAccesses.RowsFor(accesses, id)|
      ensures r.accessCount == 0 <==> forall a :: a in accesses ==> a.deviceId != id
    {
      DeviceAccesses.CountIsRows(accesses, id);
      DeviceAccesses.NoRowsIffNoneFor(accesses, id);
      DeviceInfo(id, userId, fingerprint, isTrusted, createdAt, updatedAt, DeviceAccesses.CountFor(accesses, id))
    }
  }

  /** What `Device.to_dict` reports. */
  datatype DeviceInfo = DeviceInfo(
    deviceId: nat,
    userId: string,
    fingerprint: string,
    isTrusted: bool,
    createdAt: int,
    updatedAt: Option<int>,
    accessCount: nat)
}
