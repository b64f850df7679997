/**
 * The device-registry record every entity of a lock carries: its identifier
 * in the integration's domain, its display defaults, and its network
 * connection, keyed by the lock's normalised MAC address.
 */
module Device {
  import opened Json
  import opened Payloads

  /** The integration's domain, as Home Assistant requires: its directory name. */
  const Domain: string := "sifely_cloud"

  datatype DeviceInfo = DeviceInfo(
    identifiers: set<(string, string)>,
    name: Json,
    manufacturer: string,
    model: Json,
    connections: set<(string, string)>)

  /** `async_register_lock_device`. `None` where it raises: a MAC that is set
      but is not text has no `lower()`. */
  function RegisterLockDevice(lock: Json): (r: Option<DeviceInfo>)
    ensures r.None? <==> Truthy(Get(lock, "lockMac")) && !Get(lock, "lockMac").Str?
    // one identifier, the lock id as text, even when the id is missing
    ensures r.Some? ==> r.value.identifiers == {(Domain, PyStr(LockId(lock)))}
    // display defaults
    ensures r.Some? ==> r.value.name == GetOr(lock, "lockAlias", Str("Sifely Lock"))
    ensures r.Some? ==> r.value.model == GetOr(lock, "lockName", Str("Sifely"))
    ensures r.Some? ==> r.value.manufacturer == "Sifely"
    // a connection exactly when the MAC is set and looks like one, lower-cased
    ensures r.Some? ==>
              (r.value.connections != {} <==> Truthy(Get(lock, "lockMac")) && ':' in Get(lock, "lockMac").s)
    ensures r.Some? && r.value.connections != {} ==>
              r.value.connections == {("mac", Lower(Get(lock, "lockMac").s))}
  {
    var mac := Get(lock, "lockMac");
    if Truthy(mac) && !mac.Str? then None
    else
      var normalised := if Truthy(mac) then Str(Lower(mac.s)) else mac;
      LowerKeepsColon(if mac.Str? then mac.s else "");
      var connections := if Truthy(normalised) && ':' in normalised.s then {("mac", normalised.s)} else {};
      Some(DeviceInfo(
        identifiers := {(Domain, PyStr(LockId(lock)))},
        name := GetOr(lock, "lockAlias", Str("Sifely Lock")),
        manufacturer := "Sifely",
        model := GetOr(lock, "lockName", Str("Sifely")),
        connections := connections))
  }

  /** A registered MAC is already normalised: normalising it again changes
      nothing. */
  lemma ConnectionsNormalised(lock: Json)
    requires RegisterLockDevice(lock).Some?
    ensures forall c :: c in RegisterLockDevice(lock).value.connections ==> c.0 == "mac" && Lower(c.1) == c.1
  {
    var info := RegisterLockDevice(lock).value;
    if info.connections != {} {
      LowerIdempotent(Get(lock, "lockMac").s);
    }
  }

  /** Locks with different numeric ids are registered as different devices. */
  lemma DistinctIdsDistinctDevices(a: Json, b: Json, x: int, y: int)
    requires LockId(a) == Int(x) && LockId(b) == Int(y) && x != y
    requires RegisterLockDevice(a).Some? && RegisterLockDevice(b).Some?
    ensures RegisterLockDevice(a).value.identifiers != RegisterLockDevice(b).value.identifiers
  {
    ParseIntRoundTrip(x);
    ParseIntRoundTrip(y);
    assert (Domain, IntToString(x)) in RegisterLockDevice(a).value.identifiers;
    assert (Domain, IntToString(x)) !in RegisterLockDevice(b).value.identifiers;
  }
}
