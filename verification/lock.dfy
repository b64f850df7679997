/**
 * The lock platform: one lock entity per lock with an id, its locked state
 * and availability read from the coordinator's open states, the lock and
 * unlock sequences, and how an entity picks up its lock's fresh record.
 */
module Lock {
  import opened Json
  import opened Payloads
  import opened Sifely

  /** `is_locked`: the cloud reports 0 for locked and 1 for unlocked; any
      other value, an absent one or a missing id is unknown. */
  function IsLocked(lockId: Json, openState: map<Json, Json>): (r: Option<bool>)
    ensures !Truthy(lockId) ==> r.None?
    ensures r == Some(true) <==> Truthy(lockId) && lockId in openState && PyEqInt(openState[lockId], 0)
    ensures r == Some(false) <==> Truthy(lockId) && lockId in openState && PyEqInt(openState[lockId], 1)
  {
    if !Truthy(lockId) then None
    else
      var state := if lockId in openState then openState[lockId] else Null;
      if PyEqInt(state, 0) then Some(true)
      else if PyEqInt(state, 1) then Some(false)
      else None
  }

  /** `available`: the coordinator holds an open state for the lock. */
  predicate Available(lockId: Json, openState: map<Json, Json>)
  {
    lockId != Null && lockId in openState
  }

  /** A lock that reports locked or unlocked is available. */
  lemma KnownStateIsAvailable(lockId: Json, openState: map<Json, Json>)
    requires IsLocked(lockId, openState).Some?
    ensures Available(lockId, openState)
  {
  }

  /** The first entry of `data` whose `lockId` equals `lockId`, if any. */
  function FirstMatch(data: seq<Json>, lockId: Json): (r: Option<nat>)
    ensures r.Some? ==> r.value < |data| && PyEq(LockId(data[r.value]), lockId)
    ensures r.Some? ==> forall k :: 0 <= k < r.value ==> !PyEq(LockId(data[k]), lockId)
    ensures r.None? ==> forall k :: 0 <= k < |data| ==> !PyEq(LockId(data[k]), lockId)
  {
    if data == [] then None
    else if PyEq(LockId(data[0]), lockId) then Some(0)
    else
      var rest := FirstMatch(data[1..], lockId);
      if rest.Some? then Some(rest.value + 1) else None
  }

  class SmartLock {
    const lockId: Json
    var lockData: Json

    constructor (lock: Json)
      ensures lockId == LockId(lock) && lockData == lock
    {
      lockId := LockId(lock);
      lockData := lock;
    }

    /** `_handle_coordinator_update`: take the first fresh record with this
        entity's id; keep the old one when none matches. */
    method HandleCoordinatorUpdate(data: seq<Json>)
      modifies this`lockData
      ensures FirstMatch(data, lockId).Some? ==> lockData == data[FirstMatch(data, lockId).value]
      ensures FirstMatch(data, lockId).None? ==> lockData == old(lockData)
    {
      var i := 0;
      while i < |data|
        invariant 0 <= i <= |data|
        invariant forall k :: 0 <= k < i ==> !PyEq(LockId(data[k]), lockId)
        invariant lockData == old(lockData)
      {
        if PyEq(LockId(data[i]), lockId) {
          lockData := data[i];
          return;
        }
        i := i + 1;
      }
    }

    /** The shared body of `async_lock` and `async_unlock`: nothing without an
        id; otherwise the command with its retries, then one open-state poll
        whatever the command's result. */
    method Operate(coord: Coordinator, lock: bool, commandReplies: seq<Response>, stateInputs: seq<StateReply>)
      returns (sent: seq<LockCommand>)
      requires |stateInputs| == |coord.lockList|
      modifies coord`openStateData, coord`consecutive401s, coord`reauthCalls, coord.errorSink
      ensures !Truthy(lockId) ==> sent == [] && coord.Poll() == old(coord.Poll())
      ensures Truthy(lockId) ==> coord.Poll() == OpenStateCycle(coord.cfg, old(coord.Poll()), coord.lockList, stateInputs)
      ensures forall r :: r in sent ==> r == LockCommand(lockId, lock)
      ensures |sent| <= coord.cfg.lockRetries
      ensures Truthy(lockId) && coord.cfg.lockRetries > 0 ==> |sent| > 0
    {
      if !Truthy(lockId) {
        return [];
      }
      var ok;
      ok, sent := coord.SendLockCommand(lockId, lock, commandReplies);
      coord.QueryOpenState(stateInputs);
    }

    /** `async_lock` */
    method AsyncLock(coord: Coordinator, commandReplies: seq<Response>, stateInputs: seq<StateReply>)
      returns (sent: seq<LockCommand>)
      requires |stateInputs| == |coord.lockList|
      modifies coord`openStateData, coord`consecutive401s, coord`reauthCalls, coord.errorSink
      ensures !Truthy(lockId) ==> sent == [] && coord.Poll() == old(coord.Poll())
      ensures Truthy(lockId) ==> coord.Poll() == OpenStateCycle(coord.cfg, old(coord.Poll()), coord.lockList, stateInputs)
      ensures forall r :: r in sent ==> r == LockCommand(lockId, true)
    {
      sent := Operate(coord, true, commandReplies, stateInputs);
    }

    /** `async_unlock` */
    method AsyncUnlock(coord: Coordinator, commandReplies: seq<Response>, stateInputs: seq<StateReply>)
      returns (sent: seq<LockCommand>)
      requires |stateInputs| == |coord.lockList|
      modifies coord`openStateData, coord`consecutive401s, coord`reauthCalls, coord.errorSink
      ensures !Truthy(lockId) ==> sent == [] && coord.Poll() == old(coord.Poll())
      ensures Truthy(lockId) ==> coord.Poll() == OpenStateCycle(coord.cfg, old(coord.Poll()), coord.lockList, stateInputs)
      ensures forall r :: r in sent ==> r == LockCommand(lockId, false)
    {
      sent := Operate(coord, false, commandReplies, stateInputs);
    }
  }

  /** `create_lock_entities`: one entity per lock with an id, in list order,
      each holding its own record. */
  method CreateLockEntities(locks: seq<Json>) returns (entities: seq<SmartLock>)
    ensures |entities| == |WithLockId(locks)|
    ensures forall k :: 0 <= k < |entities| ==>
              entities[k].lockData == WithLockId(locks)[k] && Truthy(entities[k].lockId)
  {
    entities := [];
    ghost var kept: seq<Json> := [];
    var i := 0;
    while i < |locks|
      invariant 0 <= i <= |locks|
      invariant kept == WithLockId(locks[..i])
      invariant |entities| == |kept|
      invariant forall k :: 0 <= k < |entities| ==> entities[k].lockData == kept[k] && Truthy(entities[k].lockId)
    {
      WithLockIdSnoc(locks, i);
      if HasLockId(locks[i]) {
        var entity := new SmartLock(locks[i]);
        entities := entities + [entity];
        kept := kept + [locks[i]];
      }
      i := i + 1;
    }
    assert locks[..i] == locks;
  }
}
