/**
 * The binary-sensor platform: a privacy-mode and a tamper-alert sensor per
 * lock, each switched on by a flag in the lock's detail record.
 */
module BinarySensor {
  import opened Json
  import opened Payloads

  datatype Flag = PrivacyLock | TamperAlert

  /** The detail field each sensor watches. */
  function FlagField(flag: Flag): string
  {
    match flag
    case PrivacyLock => "privacyLock"
    case TamperAlert => "tamperAlert"
  }

  /** A created binary sensor: what it watches and the lock record it was made from. */
  datatype BinaryEntity = BinaryEntity(flag: Flag, lock: Json)

  /** Two sensors per lock that has a `lockId`, privacy first. */
  function CreateBinarySensors(locks: seq<Json>): (r: seq<BinaryEntity>)
    ensures |r| == 2 * |WithLockId(locks)|
    ensures forall e :: e in r ==> e.lock in locks && HasLockId(e.lock)
  {
    if locks == [] then []
    else
      var last := locks[|locks| - 1];
      var before := CreateBinarySensors(locks[..|locks| - 1]);
      assert forall e :: e in before ==> e.lock in locks;
      before + (if HasLockId(last) then [BinaryEntity(PrivacyLock, last), BinaryEntity(TamperAlert, last)] else [])
  }

  /** The `k`-th lock with an id owns positions `2k` (privacy) and `2k + 1`
      (tamper). */
  lemma {:induction false} CreateBinarySensorsOrder(locks: seq<Json>, k: nat)
    requires k < |WithLockId(locks)|
    ensures CreateBinarySensors(locks)[2 * k] == BinaryEntity(PrivacyLock, WithLockId(locks)[k])
    ensures CreateBinarySensors(locks)[2 * k + 1] == BinaryEntity(TamperAlert, WithLockId(locks)[k])
  {
    var n := |locks| - 1;
    var prefix := locks[..n];
    if k < |WithLockId(prefix)| {
      CreateBinarySensorsOrder(prefix, k);
      assert WithLockId(locks)[k] == WithLockId(prefix)[k];
    } else {
      assert HasLockId(locks[n]) && WithLockId(locks)[k] == locks[n];
    }
  }

  /** `details`: the lock's record, or an empty one. */
  function Details(detailsData: map<Json, map<string, Json>>, lockId: Json): (r: map<string, Json>)
    ensures lockId in detailsData ==> r == detailsData[lockId]
    ensures lockId !in detailsData ==> r == map[]
  {
    if lockId in detailsData then detailsData[lockId] else map[]
  }

  /** `is_on`: the watched field equals 1 (`True` counts, as in Python). */
  function IsOn(flag: Flag, detailsData: map<Json, map<string, Json>>, lockId: Json): (r: bool)
    ensures r <==> lockId in detailsData && FlagField(flag) in detailsData[lockId]
                   && PyEqInt(detailsData[lockId][FlagField(flag)], 1)
    ensures lockId !in detailsData ==> !r
  {
    PyEqInt(Lookup(Details(detailsData, lockId), FlagField(flag)), 1)
  }

  class FlagSensor {
    const flag: Flag
    const lockId: Json
    var isOn: Option<bool>   // _attr_is_on, unset until the first update

    constructor (flag: Flag, lock: Json)
      ensures this.flag == flag && lockId == LockId(lock) && isOn == None
    {
      this.flag := flag;
      lockId := LockId(lock);
      isOn := None;
    }

    /** `update_state`: record the current reading. */
    method UpdateState(detailsData: map<Json, map<string, Json>>)
      modifies this`isOn
      ensures isOn == Some(IsOn(flag, detailsData, lockId))
    {
      var details := Details(detailsData, lockId);
      isOn := Some(FlagField(flag) in details && PyEqInt(details[FlagField(flag)], 1));
    }
  }
}
