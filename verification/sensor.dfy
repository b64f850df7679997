/**
 * The sensor platform: which sensor entities are created per lock, the
 * battery and diagnostic readings derived from the coordinator's detail
 * records, the history sensor's text and attributes, and the cloud-error
 * sensor that the coordinator raises and clears.
 */
module Sensor {
  import opened Json
  import opened Payloads

  const NoRecentActivity: string := "No recent activity"

  // ---------------------------------------------------------------------
  // create_sensors

  datatype SensorKind = Battery | History | CloudError | Diagnostic

  /** A created sensor entity: its kind and the lock record it was made from. */
  datatype SensorEntity = SensorEntity(kind: SensorKind, lock: Json)

  /** The order in which the four sensors of one lock are created. */
  const KindOrder: seq<SensorKind> := [Battery, History, CloudError, Diagnostic]

  function SensorsFor(lock: Json): (r: seq<SensorEntity>)
    ensures |r| == 4
  {
    seq(4, j requires 0 <= j < 4 => SensorEntity(KindOrder[j], lock))
  }

  /** Four sensors per lock that has a `lockId`; the other locks get none. */
  function CreateSensors(locks: seq<Json>): (r: seq<SensorEntity>)
    ensures |r| == 4 * |WithLockId(locks)|
    ensures forall e :: e in r ==> e.lock in locks && HasLockId(e.lock)
  {
    if locks == [] then []
    else
      var last := locks[|locks| - 1];
      var before := CreateSensors(locks[..|locks| - 1]);
      assert forall e :: e in before ==> e.lock in locks;
      before + (if HasLockId(last) then SensorsFor(last) else [])
  }

  /** The `j`-th sensor of the `k`-th lock that has an id sits at `4k + j`:
      battery, history, error, diagnostic, lock after lock. */
  lemma {:induction false} CreateSensorsOrder(locks: seq<Json>, k: nat, j: nat)
    requires k < |WithLockId(locks)| && j < 4
    ensures CreateSensors(locks)[4 * k + j] == SensorEntity(KindOrder[j], WithLockId(locks)[k])
  {
    var n := |locks| - 1;
    var prefix := locks[..n];
    if k < |WithLockId(prefix)| {
      CreateSensorsOrder(prefix, k, j);
      assert WithLockId(locks)[k] == WithLockId(prefix)[k];
    } else {
      assert HasLockId(locks[n]) && WithLockId(locks)[k] == locks[n];
    }
  }

  // ---------------------------------------------------------------------
  // Battery sensor

  /** `native_value`: the integer conversion of `electricQuantity`, or None
      when the field is missing or does not convert. */
  function BatteryValue(details: map<Json, map<string, Json>>, lockId: Json): (r: Option<int>)
    ensures r.Some? ==> lockId in details && "electricQuantity" in details[lockId]
    ensures lockId in details && "electricQuantity" in details[lockId]
            ==> r == PyInt(details[lockId]["electricQuantity"])
  {
    var record := if lockId in details then details[lockId] else map[];
    var value := Lookup(record, "electricQuantity");
    if value != Null then PyInt(value) else None
  }

  /** `available`: the lock has an id and its detail record carries a battery
      field. */
  predicate BatteryAvailable(details: map<Json, map<string, Json>>, lockId: Json)
  {
    lockId != Null && lockId in details && "electricQuantity" in details[lockId]
  }

  /** A sensor with an id that shows a level is available, and one that is
      not available shows none. */
  lemma BatteryValueNeedsAvailable(details: map<Json, map<string, Json>>, lockId: Json)
    requires lockId != Null
    ensures BatteryValue(details, lockId).Some? ==> BatteryAvailable(details, lockId)
    ensures !BatteryAvailable(details, lockId) ==> BatteryValue(details, lockId).None?
  {
  }

  /** A battery reported as text reads back as the number it spells, and the
      sensor is then available. */
  lemma BatteryReadsText(details: map<Json, map<string, Json>>, lockId: Json, level: int)
    requires lockId != Null && lockId in details
    requires "electricQuantity" in details[lockId]
    requires details[lockId]["electricQuantity"] == Str(IntToString(level))
    ensures BatteryValue(details, lockId) == Some(level)
    ensures BatteryAvailable(details, lockId)
  {
    ParseIntRoundTrip(level);
  }

  // ---------------------------------------------------------------------
  // History sensor

  /** `HISTORY_RECORD_TYPES.get(record_type, f"{record_type}")` */
  function RecordMethod(recordType: Json, recordTypes: map<Json, string>): string
  {
    if recordType in recordTypes then recordTypes[recordType] else PyStr(recordType)
  }

  /** One line of the polled history. `formatTime` stands for the local-time
      rendering of `lockDate`, including its fallback to `str(ts)`. */
  function HistoryLine(entry: Json, recordTypes: map<Json, string>, formatTime: Json -> string): string
  {
    var user := GetOr(entry, "username", Str("Unknown"));
    var recordType := GetOr(entry, "recordType", Str("N/A"));
    var success := GetOr(entry, "success", Int(-1));
    var successText := if PyEqInt(success, 1) then "\U{2705} Success" else "\U{274C} Failed";
    formatTime(Get(entry, "lockDate")) + ": " + PyStr(user) + " via "
      + RecordMethod(recordType, recordTypes) + " \U{2014} " + successText
  }

  function HistoryLines(entries: seq<Json>, recordTypes: map<Json, string>, formatTime: Json -> string): (r: seq<string>)
    ensures |r| == |entries|
    ensures forall k :: 0 <= k < |entries| ==> r[k] == HistoryLine(entries[k], recordTypes, formatTime)
  {
    seq(|entries|, k requires 0 <= k < |entries| => HistoryLine(entries[k], recordTypes, formatTime))
  }

  /** The attribute key of the `i`-th line (counted from 0): "entry_<i+1>". */
  function EntryKey(i: nat): Json
  {
    Str("entry_" + NatToString(i + 1))
  }

  lemma EntryKeyInjective(i: nat, j: nat)
    requires EntryKey(i) == EntryKey(j)
    ensures i == j
  {
    var a, b := "entry_" + NatToString(i + 1), "entry_" + NatToString(j + 1);
    assert a[6..] == NatToString(i + 1);
    assert b[6..] == NatToString(j + 1);
    NatToStringInjective(i + 1, j + 1);
  }

  /** The attribute map of `async_update`: line `i` under "entry_<i+1>". */
  function NumberedAttrs(lines: seq<string>): map<Json, string>
  {
    if lines == [] then map[]
    else NumberedAttrs(lines[..|lines| - 1])[EntryKey(|lines| - 1) := lines[|lines| - 1]]
  }

  lemma NumberedAttrsSnoc(lines: seq<string>, line: string)
    ensures NumberedAttrs(lines + [line]) == NumberedAttrs(lines)[EntryKey(|lines|) := line]
  {
    assert (lines + [line])[..|lines|] == lines;
  }

  /** Each line is held under its own key. */
  lemma {:induction false} NumberedAttrsAt(lines: seq<string>, i: nat)
    requires i < |lines|
    ensures EntryKey(i) in NumberedAttrs(lines)
    ensures NumberedAttrs(lines)[EntryKey(i)] == lines[i]
  {
    var n := |lines| - 1;
    if i < n {
      NumberedAttrsAt(lines[..n], i);
      if EntryKey(i) == EntryKey(n) {
        EntryKeyInjective(i, n);
      }
    }
  }

  /** The keys are "entry_1" up to "entry_<number of lines>" and nothing else. */
  lemma {:induction false} NumberedAttrsKeys(lines: seq<string>)
    ensures forall key :: key in NumberedAttrs(lines) <==> exists i :: 0 <= i < |lines| && key == EntryKey(i)
  {
    if lines != [] {
      NumberedAttrsKeys(lines[..|lines| - 1]);
    }
  }

  /** One key per line: no two lines share a key. */
  lemma {:induction false} NumberedAttrsSize(lines: seq<string>)
    ensures |NumberedAttrs(lines)| == |lines|
  {
    if lines != [] {
      var n := |lines| - 1;
      NumberedAttrsSize(lines[..n]);
      NumberedAttrsKeys(lines[..n]);
      if EntryKey(n) in NumberedAttrs(lines[..n]) {
        var i :| 0 <= i < n && EntryKey(n) == EntryKey(i);
        EntryKeyInjective(i, n);
      }
    }
  }

  /** The text `_update_from_entries` shows for one entry. */
  function EntryText(entry: Json, recordTypes: map<Json, string>): string
  {
    var username := GetOr(entry, "username", Str("Unknown"));
    var recordType := GetOr(entry, "recordType", Str("N/A"));
    var success := GetOr(entry, "success", Str("Unknown"));
    PyStr(username) + " - " + RecordMethod(recordType, recordTypes) + " - " + PyStr(success)
  }

  /** The attribute map of `_update_from_entries`, keyed by `lockDate`. */
  function TimestampAttrs(entries: seq<Json>, recordTypes: map<Json, string>): map<Json, string>
  {
    if entries == [] then map[]
    else
      var last := entries[|entries| - 1];
      TimestampAttrs(entries[..|entries| - 1], recordTypes)[Get(last, "lockDate") := EntryText(last, recordTypes)]
  }

  lemma TimestampAttrsSnoc(entries: seq<Json>, recordTypes: map<Json, string>, i: nat)
    requires i < |entries|
    ensures TimestampAttrs(entries[..i + 1], recordTypes)
         == TimestampAttrs(entries[..i], recordTypes)[Get(entries[i], "lockDate") := EntryText(entries[i], recordTypes)]
  {
    assert entries[..i + 1][..i] == entries[..i];
  }

  /** The keys are exactly the entries' timestamps. */
  lemma {:induction false} TimestampAttrsKeys(entries: seq<Json>, recordTypes: map<Json, string>)
    ensures TimestampAttrs(entries, recordTypes).Keys == set e | e in entries :: Get(e, "lockDate")
  {
    if entries != [] {
      var n := |entries| - 1;
      TimestampAttrsKeys(entries[..n], recordTypes);
      assert entries == entries[..n] + [entries[n]];
      assert (set e | e in entries :: Get(e, "lockDate"))
          == (set e | e in entries[..n] :: Get(e, "lockDate")) + {Get(entries[n], "lockDate")};
    }
  }

  /** Among entries sharing a timestamp, the last one's text is kept. */
  lemma {:induction false} TimestampAttrsLastWins(entries: seq<Json>, recordTypes: map<Json, string>, k: nat)
    requires k < |entries|
    requires forall j :: k < j < |entries| ==> Get(entries[j], "lockDate") != Get(entries[k], "lockDate")
    ensures Get(entries[k], "lockDate") in TimestampAttrs(entries, recordTypes)
    ensures TimestampAttrs(entries, recordTypes)[Get(entries[k], "lockDate")] == EntryText(entries[k], recordTypes)
  {
    var n := |entries| - 1;
    var prefix := entries[..n];
    var key := Get(entries[k], "lockDate");
    var before := TimestampAttrs(prefix, recordTypes);
    var full := TimestampAttrs(entries, recordTypes);
    var text := EntryText(entries[n], recordTypes);
    assert full == before[Get(entries[n], "lockDate") := text];
    if k < n {
      assert Get(entries[n], "lockDate") != key;
      forall j | k < j < |prefix|
        ensures Get(prefix[j], "lockDate") != Get(prefix[k], "lockDate")
      {
        assert prefix[j] == entries[j];
      }
      TimestampAttrsLastWins(prefix, recordTypes, k);
      assert prefix[k] == entries[k];
      assert key in before && before[key] == EntryText(entries[k], recordTypes);
      assert full[key] == before[key];
    } else {
      assert k == n && key == Get(entries[n], "lockDate");
    }
  }

  /** The loop of `async_update`: one line per shown entry, each stored
      under its number. `render` is the line format of `HistoryLine`. */
  method RenderHistory(shown: seq<Json>, render: Json -> string)
    returns (lines: seq<string>, attrMap: map<Json, string>)
    ensures |lines| == |shown|
    ensures forall k :: 0 <= k < |shown| ==> lines[k] == render(shown[k])
    ensures attrMap == NumberedAttrs(lines)
  {
    lines := [];
    attrMap := map[];
    var i := 0;
    while i < |shown|
      invariant 0 <= i <= |shown|
      invariant |lines| == i
      invariant forall k :: 0 <= k < i ==> lines[k] == render(shown[k])
      invariant attrMap == NumberedAttrs(lines)
    {
      var line := render(shown[i]);
      NumberedAttrsSnoc(lines, line);
      lines := lines + [line];
      attrMap := attrMap[EntryKey(i) := line];
      i := i + 1;
    }
  }

  class HistorySensor {
    const lockId: Json
    var value: Option<string>        // _attr_native_value
    var attrs: map<Json, string>     // _attr_extra_state_attributes
    var latestEntries: seq<Json>     // _latest_entries

    constructor (lock: Json)
      ensures lockId == LockId(lock)
      ensures value == None && attrs == map[] && latestEntries == []
    {
      lockId := LockId(lock);
      value := None;
      attrs := map[];
      latestEntries := [];
    }

    /** `async_update`: show at most `limit` lines of the history that the
        coordinator's query returns for this lock. */
    method AsyncUpdate(reply: Response, limit: nat, recordTypes: map<Json, string>, formatTime: Json -> string)
      modifies this
      ensures var history := HistoryOf(reply);
              var shown := history[..if limit < |history| then limit else |history|];
              && value == Some(if shown == [] then NoRecentActivity
                               else HistoryLine(shown[0], recordTypes, formatTime))
              && attrs == NumberedAttrs(HistoryLines(shown, recordTypes, formatTime))
      ensures latestEntries == old(latestEntries)
    {
      var history := HistoryOf(reply);
      if history == [] {
        value := Some(NoRecentActivity);
        attrs := map[];
        return;
      }
      var shown := history[..if limit < |history| then limit else |history|];
      var lines, attrMap := RenderHistory(shown, entry => HistoryLine(entry, recordTypes, formatTime));
      assert lines == HistoryLines(shown, recordTypes, formatTime);
      value := Some(if lines != [] then lines[0] else NoRecentActivity);
      attrs := attrMap;
    }

    /** `_external_update`: batches for other locks are ignored. */
    method ExternalUpdate(forLock: Json, entries: seq<Json>, recordTypes: map<Json, string>)
      modifies this
      ensures !PyEq(forLock, lockId) ==> unchanged(this)
      ensures PyEq(forLock, lockId) ==> latestEntries == entries && ShowsEntries(recordTypes)
    {
      if !PyEq(forLock, lockId) {
        return;
      }
      latestEntries := entries;
      UpdateFromEntries(recordTypes);
    }

    /** The state `_update_from_entries` leaves behind. */
    ghost predicate ShowsEntries(recordTypes: map<Json, string>)
      reads this
    {
      if latestEntries == [] then value == Some(NoRecentActivity) && attrs == map[]
      else value == Some(EntryText(latestEntries[0], recordTypes))
           && attrs == TimestampAttrs(latestEntries, recordTypes)
    }

    /** `_update_from_entries`: the first entry's text, attributes keyed by
        timestamp with later duplicates overwriting earlier ones. */
    method UpdateFromEntries(recordTypes: map<Json, string>)
      modifies this
      ensures latestEntries == old(latestEntries)
      ensures ShowsEntries(recordTypes)
    {
      if latestEntries == [] {
        value := Some(NoRecentActivity);
        attrs := map[];
        return;
      }
      var entries := latestEntries;
      var attrMap: map<Json, string> := map[];
      var latestValue: Option<string> := None;
      var i := 0;
      while i < |entries|
        invariant 0 <= i <= |entries|
        invariant latestEntries == entries
        invariant attrMap == TimestampAttrs(entries[..i], recordTypes)
        invariant latestValue == if i == 0 then None else Some(EntryText(entries[0], recordTypes))
      {
        var entry := entries[i];
        var formatted := EntryText(entry, recordTypes);
        TimestampAttrsSnoc(entries, recordTypes, i);
        attrMap := attrMap[Get(entry, "lockDate") := formatted];
        if latestValue.None? {
          latestValue := Some(formatted);
        }
        i := i + 1;
      }
      assert entries[..i] == entries;
      value := latestValue;
      attrs := attrMap;
    }
  }

  // ---------------------------------------------------------------------
  // Cloud-error sensor

  /** What an error sensor shows: its state and its attributes. */
  datatype ErrorView = ErrorView(value: string, attrs: map<string, string>)

  function RaisedView(message: string): ErrorView
  {
    ErrorView("Error", map["last_error" := message])
  }

  const ClearedView: ErrorView := ErrorView("OK", map[])

  class CloudErrorSensor {
    const lockId: Json
    var value: string                 // _attr_native_value
    var attrs: map<string, string>    // _attr_extra_state_attributes

    constructor (lock: Json)
      ensures lockId == LockId(lock) && View() == ClearedView
    {
      lockId := LockId(lock);
      value := "OK";
      attrs := map[];
    }

    function View(): ErrorView
      reads this
    {
      ErrorView(value, attrs)
    }

    /** `set_error` */
    method SetError(message: string)
      modifies this
      ensures View() == RaisedView(message)
    {
      value := "Error";
      attrs := map["last_error" := message];
    }

    /** `clear_error` */
    method ClearError()
      modifies this
      ensures View() == ClearedView
    {
      value := "OK";
      attrs := map[];
    }
  }

  // ---------------------------------------------------------------------
  // Diagnostic sensor

  /** The lock's detail record is present and not empty. */
  predicate HasDetails(details: map<Json, map<string, Json>>, lockId: Json)
  {
    lockId in details && details[lockId] != map[]
  }

  /** `native_value` */
  function DiagnosticValue(details: map<Json, map<string, Json>>, lockId: Json): (r: string)
    ensures r == "OK" || r == "Unavailable"
    ensures r == "OK" <==> HasDetails(details, lockId)
  {
    if lockId in details && details[lockId] != map[] then "OK" else "Unavailable"
  }

  /** Attribute name, detail field and default of each diagnostic attribute. */
  const DiagnosticFields: seq<(string, string, Json)> := [
    ("firmware_revision", "firmwareRevision", Str("N/A")),
    ("hardware_revision", "hardwareRevision", Str("N/A")),
    ("keyboard_pwd_version", "keyboardPwdVersion", Str("N/A")),
    ("has_gateway", "hasGateway", Bool(false)),
    ("is_frozen", "isFrozen", Bool(false)),
    ("passage_mode", "passageMode", Bool(false)),
    ("lock_version", "lockVersion", Str("N/A"))
  ]

  /** `extra_state_attributes` */
  function DiagnosticAttributes(details: map<Json, map<string, Json>>, lockId: Json): (r: map<string, Json>)
    ensures r == map[] <==> !HasDetails(details, lockId)
  {
    var d := if lockId in details then details[lockId] else map[];
    if d == map[] then map[]
    else
      var o := Obj(d);
      var r := map[
        "firmware_revision" := GetOr(o, "firmwareRevision", Str("N/A")),
        "hardware_revision" := GetOr(o, "hardwareRevision", Str("N/A")),
        "keyboard_pwd_version" := GetOr(o, "keyboardPwdVersion", Str("N/A")),
        "has_gateway" := GetOr(o, "hasGateway", Bool(false)),
        "is_frozen" := GetOr(o, "isFrozen", Bool(false)),
        "passage_mode" := GetOr(o, "passageMode", Bool(false)),
        "lock_version" := GetOr(o, "lockVersion", Str("N/A"))
      ];
      assert "firmware_revision" in r;
      r
  }

  /** With details present, each listed attribute is the detail field or its
      default. */
  lemma DiagnosticAttributeAt(details: map<Json, map<string, Json>>, lockId: Json, k: nat)
    requires HasDetails(details, lockId) && k < |DiagnosticFields|
    ensures DiagnosticFields[k].0 in DiagnosticAttributes(details, lockId)
    ensures DiagnosticAttributes(details, lockId)[DiagnosticFields[k].0]
            == GetOr(Obj(details[lockId]), DiagnosticFields[k].1, DiagnosticFields[k].2)
  {
  }

  /** No attribute beyond the listed ones. */
  lemma DiagnosticAttributesOnly(details: map<Json, map<string, Json>>, lockId: Json, name: string)
    requires name in DiagnosticAttributes(details, lockId)
    ensures exists k :: 0 <= k < |DiagnosticFields| && DiagnosticFields[k].0 == name
  {
    assert || name == DiagnosticFields[0].0 || name == DiagnosticFields[1].0
           || name == DiagnosticFields[2].0 || name == DiagnosticFields[3].0
           || name == DiagnosticFields[4].0 || name == DiagnosticFields[5].0
           || name == DiagnosticFields[6].0;
  }

  /** The diagnostic sensor reads "OK" exactly when it has attributes to show. */
  lemma DiagnosticOkIffAttributes(details: map<Json, map<string, Json>>, lockId: Json)
    ensures DiagnosticValue(details, lockId) == "OK" <==> DiagnosticAttributes(details, lockId) != map[]
  {
  }
}
