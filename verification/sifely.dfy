/**
 * The polling-and-command coordinator: the lock list, the per-lock detail
 * records and open states, the account-wide count of consecutive 401 replies
 * with its two escalation thresholds, the bounded retry of lock and unlock
 * commands, and the callback slots that sensors install on it.
 *
 * Every request's outcome is an input (`Response`); each poll cycle is
 * specified by a function that folds the per-lock decision over the lock
 * list, and the methods are proved to compute exactly that fold.
 */
module Sifely {
  import opened Json
  import opened Payloads
  import opened Sensor

  /** The tunables the integration takes from its constants module. */
  datatype Config = Config(
    reauthAfter: nat,   // 401s in a row before the token manager re-logs in
    alertAfter: nat,    // 401s in a row before the error sensor is raised
    lockRetries: nat    // attempts per lock or unlock command
  )

  function AlertMessage(alertAfter: nat): string
  {
    "Exceeded " + NatToString(alertAfter) + " consecutive 401 errors. Token likely invalid."
  }

  // ---------------------------------------------------------------------
  // Open-state polling

  /** The reply to one lock's open-state request, together with whether the
      token manager's re-login raises should this reply trigger it. */
  datatype StateReply = StateReply(response: Response, reauthRaises: bool)

  /** What an open-state poll reads and writes: the stored states, the 401
      counter, how often re-login was requested, and what the registered error
      sensor shows (None when no error sensor is registered). */
  datatype PollState = PollState(
    openState: map<Json, Json>,
    failures: nat,
    reauthCalls: nat,
    alert: Option<ErrorView>)

  function ClearAlert(alert: Option<ErrorView>): Option<ErrorView>
  {
    if alert.Some? then Some(ClearedView) else None
  }

  function RaiseAlert(alert: Option<ErrorView>, message: string): Option<ErrorView>
  {
    if alert.Some? then Some(RaisedView(message)) else None
  }

  predicate IsStatus(resp: Response, status: int)
  {
    resp.Reply? && resp.status == status
  }

  /** The handling of one lock's open-state reply. */
  function OpenStateStep(cfg: Config, p: PollState, lockId: Json, input: StateReply): (r: PollState)
    // any parsed 200 resets the counter and clears the alert, whatever the payload
    ensures IsStatus(input.response, 200) ==> r.failures == 0 && r.alert == ClearAlert(p.alert)
    // what a 200 stores for this lock, and that no other lock's state moves
    // (an unhashable id makes the store raise, which the poll catches)
    ensures IsStatus(input.response, 200) && OpenStateValue(input.response.body).Some? && Hashable(lockId)
            ==> r.openState == p.openState[lockId := OpenStateValue(input.response.body).value]
    ensures !(IsStatus(input.response, 200) && OpenStateValue(input.response.body).Some? && Hashable(lockId))
            ==> r.openState == p.openState
    // a 401 adds exactly one to the counter
    ensures IsStatus(input.response, 401) ==> r.failures == p.failures + 1
    // re-login is requested exactly when a 401 brings the counter to the threshold
    ensures r.reauthCalls == p.reauthCalls
              + (if IsStatus(input.response, 401) && p.failures + 1 == cfg.reauthAfter then 1 else 0)
    // the alert is raised on every 401 at or past its threshold, unless the
    // re-login that this very 401 triggered raised
    ensures IsStatus(input.response, 401) && p.failures + 1 >= cfg.alertAfter
            && !(p.failures + 1 == cfg.reauthAfter && input.reauthRaises)
            ==> r.alert == RaiseAlert(p.alert, AlertMessage(cfg.alertAfter))
    ensures IsStatus(input.response, 401) && !(p.failures + 1 >= cfg.alertAfter
            && !(p.failures + 1 == cfg.reauthAfter && input.reauthRaises))
            ==> r.alert == p.alert
    // other statuses, unparseable bodies and transport failures change nothing
    ensures !IsStatus(input.response, 200) && !IsStatus(input.response, 401) ==> r == p
  {
    match input.response
    case Reply(status, body) =>
      if status == 200 then
        var stored := OpenStateValue(body);
        p.(failures := 0,
           alert := ClearAlert(p.alert),
           openState := if stored.Some? && Hashable(lockId) then p.openState[lockId := stored.value] else p.openState)
      else if status == 401 then
        var count := p.failures + 1;
        var reauth := count == cfg.reauthAfter;
        var afterReauth := p.(failures := count,
                              reauthCalls := p.reauthCalls + (if reauth then 1 else 0));
        if reauth && input.reauthRaises then afterReauth
        else if count >= cfg.alertAfter then
          afterReauth.(alert := RaiseAlert(p.alert, AlertMessage(cfg.alertAfter)))
        else afterReauth
      else p
    case _ => p
  }

  /** One open-state cycle: every lock with an id, in list order. */
  function OpenStateCycle(cfg: Config, p: PollState, locks: seq<Json>, inputs: seq<StateReply>): PollState
    requires |inputs| == |locks|
  {
    if locks == [] then p
    else
      var n := |locks| - 1;
      var before := OpenStateCycle(cfg, p, locks[..n], inputs[..n]);
      if HasLockId(locks[n]) then OpenStateStep(cfg, before, LockId(locks[n]), inputs[n]) else before
  }

  /** A cycle only writes states of locks that it polled. */
  lemma {:induction false} OpenStateCycleKeys(cfg: Config, p: PollState, locks: seq<Json>, inputs: seq<StateReply>)
    requires |inputs| == |locks|
    ensures forall id :: id in OpenStateCycle(cfg, p, locks, inputs).openState ==>
              id in p.openState || (Hashable(id) && exists k :: 0 <= k < |locks| && HasLockId(locks[k]) && LockId(locks[k]) == id)
  {
    if locks != [] {
      var n := |locks| - 1;
      OpenStateCycleKeys(cfg, p, locks[..n], inputs[..n]);
      forall id | id in OpenStateCycle(cfg, p, locks, inputs).openState
        ensures id in p.openState || (Hashable(id) && exists k :: 0 <= k < |locks| && HasLockId(locks[k]) && LockId(locks[k]) == id)
      {
        if id in OpenStateCycle(cfg, p, locks[..n], inputs[..n]).openState && !(id in p.openState) {
          var k :| 0 <= k < n && HasLockId(locks[..n][k]) && LockId(locks[..n][k]) == id;
          assert locks[..n][k] == locks[k];
        }
      }
    }
  }

  /** A cycle in which no lock got a parsed 200 or 401 reply (transport
      failures, unparseable bodies, other statuses) leaves everything as it
      was, the counter included. */
  lemma {:induction false} OpenStateCycleFailuresInert(cfg: Config, p: PollState, locks: seq<Json>, inputs: seq<StateReply>)
    requires |inputs| == |locks|
    requires forall k :: 0 <= k < |inputs| ==>
               !IsStatus(inputs[k].response, 200) && !IsStatus(inputs[k].response, 401)
    ensures OpenStateCycle(cfg, p, locks, inputs) == p
  {
    if locks != [] {
      var n := |locks| - 1;
      OpenStateCycleFailuresInert(cfg, p, locks[..n], inputs[..n]);
    }
  }

  /** A run of 401 replies raises the counter by its length and requests
      re-login once if the run crosses the threshold, never more. */
  lemma {:induction false} UnauthorizedRun(cfg: Config, p: PollState, locks: seq<Json>, inputs: seq<StateReply>)
    requires |inputs| == |locks|
    requires forall k :: 0 <= k < |locks| ==> HasLockId(locks[k]) && IsStatus(inputs[k].response, 401)
    ensures OpenStateCycle(cfg, p, locks, inputs).failures == p.failures + |locks|
    ensures OpenStateCycle(cfg, p, locks, inputs).reauthCalls
              == p.reauthCalls + (if p.failures < cfg.reauthAfter <= p.failures + |locks| then 1 else 0)
    ensures OpenStateCycle(cfg, p, locks, inputs).openState == p.openState
  {
    if locks != [] {
      var n := |locks| - 1;
      UnauthorizedRun(cfg, p, locks[..n], inputs[..n]);
    }
  }

  /** A cycle never installs or removes the error sensor, it only changes
      what that sensor shows. */
  lemma {:induction false} OpenStateCycleKeepsSensor(cfg: Config, p: PollState, locks: seq<Json>, inputs: seq<StateReply>)
    requires |inputs| == |locks|
    ensures OpenStateCycle(cfg, p, locks, inputs).alert.Some? == p.alert.Some?
  {
    if locks != [] {
      var n := |locks| - 1;
      OpenStateCycleKeepsSensor(cfg, p, locks[..n], inputs[..n]);
    }
  }

  /** A cycle whose last polled lock got a parsed 200 ends with the counter
      at zero and the alert cleared, however many 401s came before. */
  lemma SuccessEndsRun(cfg: Config, p: PollState, locks: seq<Json>, inputs: seq<StateReply>)
    requires |inputs| == |locks| && |locks| > 0
    requires HasLockId(locks[|locks| - 1]) && IsStatus(inputs[|locks| - 1].response, 200)
    ensures OpenStateCycle(cfg, p, locks, inputs).failures == 0
    ensures OpenStateCycle(cfg, p, locks, inputs).alert == ClearAlert(p.alert)
  {
    var n := |locks| - 1;
    OpenStateCycleKeepsSensor(cfg, p, locks[..n], inputs[..n]);
  }

  // ---------------------------------------------------------------------
  // Detail polling

  /** The detail map one cycle builds, starting from an empty map. */
  function DetailsCycle(locks: seq<Json>, replies: seq<Response>): (r: map<Json, map<string, Json>>)
    requires |replies| == |locks|
    // every key is the id of a polled lock whose reply yielded a record this cycle
    // (an unhashable id makes the store raise, which the poll catches)
    ensures forall id :: id in r ==>
              exists k :: 0 <= k < |locks| && HasLockId(locks[k]) && LockId(locks[k]) == id
                          && Hashable(id) && DetailRecord(replies[k]).Some?
  {
    if locks == [] then map[]
    else
      var n := |locks| - 1;
      var before := DetailsCycle(locks[..n], replies[..n]);
      assert forall k :: 0 <= k < n ==> locks[..n][k] == locks[k] && replies[..n][k] == replies[k];
      var record := DetailRecord(replies[n]);
      if HasLockId(locks[n]) && Hashable(LockId(locks[n])) && record.Some?
      then before[LockId(locks[n]) := record.value] else before
  }

  /** A lock whose reply yielded a record, and which no later lock shares an
      id with, ends the cycle with exactly that record. */
  lemma {:induction false} DetailsCycleStores(locks: seq<Json>, replies: seq<Response>, k: nat)
    requires |replies| == |locks| && k < |locks|
    requires HasLockId(locks[k]) && Hashable(LockId(locks[k])) && DetailRecord(replies[k]).Some?
    requires forall j :: k < j < |locks| ==> LockId(locks[j]) != LockId(locks[k])
    ensures LockId(locks[k]) in DetailsCycle(locks, replies)
    ensures DetailsCycle(locks, replies)[LockId(locks[k])] == DetailRecord(replies[k]).value
  {
    var n := |locks| - 1;
    var before := DetailsCycle(locks[..n], replies[..n]);
    var record := DetailRecord(replies[n]);
    assert DetailsCycle(locks, replies)
        == if HasLockId(locks[n]) && Hashable(LockId(locks[n])) && record.Some?
           then before[LockId(locks[n]) := record.value] else before;
    if k < n {
      assert LockId(locks[n]) != LockId(locks[k]);
      forall j | k < j < n
        ensures LockId(locks[..n][j]) != LockId(locks[..n][k])
      {
        assert locks[..n][j] == locks[j];
      }
      DetailsCycleStores(locks[..n], replies[..n], k);
      assert locks[..n][k] == locks[k] && replies[..n][k] == replies[k];
    }
  }

  // ---------------------------------------------------------------------
  // The coordinator

  /** A lock or unlock request as sent. */
  datatype LockCommand = LockCommand(lockId: Json, lock: bool)

  class Coordinator {
    const cfg: Config
    var lockList: seq<Json>                          // lock_list
    var detailsData: map<Json, map<string, Json>>    // details_data
    var openStateData: map<Json, Json>               // open_state_data
    var consecutive401s: nat                         // _consecutive_401s
    var reauthCalls: nat                             // calls of refresh_login_token
    var errorSink: CloudErrorSensor?                 // set_cloud_error / clear_cloud_error
    var historySink: HistorySensor?                  // update_history_sensor

    constructor (cfg: Config)
      ensures this.cfg == cfg
      ensures lockList == [] && detailsData == map[] && openStateData == map[]
      ensures consecutive401s == 0 && reauthCalls == 0
      ensures errorSink == null && historySink == null
    {
      this.cfg := cfg;
      lockList := [];
      detailsData := map[];
      openStateData := map[];
      consecutive401s := 0;
      reauthCalls := 0;
      errorSink := null;
      historySink := null;
    }

    /** The state an open-state poll works on. */
    function Poll(): PollState
      reads this, errorSink
    {
      PollState(openStateData, consecutive401s, reauthCalls,
                if errorSink == null then None else Some(errorSink.View()))
    }

    /** `async_fetch_lock_list`: `None` stands for the `UpdateFailed` it raises. */
    method FetchLockList(reply: Response) returns (locks: Option<seq<Json>>)
      modifies this`lockList
      ensures locks == LockListOf(reply)
      ensures lockList == if locks.Some? then locks.value else old(lockList)
    {
      match reply {
        case TransportError =>
          locks := None;
        case Unparseable(_) =>
          locks := None;
        case Reply(status, body) =>
          if status != 200 || !Has(body, "list") || !body.fields["list"].Arr? {
            locks := None;
          } else {
            lockList := body.fields["list"].items;
            locks := Some(lockList);
          }
      }
    }

    /** The body of the open-state loop for one lock with an id. */
    method PollLock(lockId: Json, input: StateReply)
      modifies this`openStateData, this`consecutive401s, this`reauthCalls, errorSink
      ensures Poll() == OpenStateStep(cfg, old(Poll()), lockId, input)
    {
      ghost var p := Poll();
      ghost var step := OpenStateStep(cfg, p, lockId, input);
      match input.response {
        case TransportError =>
          assert step == p;
        case Unparseable(_) =>
          assert step == p;
        case Reply(status, body) =>
          if status == 200 {
            PollSucceeded(lockId, body);
          } else if status == 401 {
            PollUnauthorized(input.reauthRaises);
          } else {
            assert step == p;
          }
      }
    }

    /** A 200 reply: reset the counter, clear the alert, store the state. */
    method PollSucceeded(lockId: Json, body: Json)
      modifies this`openStateData, this`consecutive401s, errorSink
      ensures Poll() == old(Poll()).(failures := 0, alert := ClearAlert(old(Poll()).alert),
                                     openState := if OpenStateValue(body).Some? && Hashable(lockId)
                                                  then old(openStateData)[lockId := OpenStateValue(body).value]
                                                  else old(openStateData))
    {
      consecutive401s := 0;
      if errorSink != null {
        errorSink.ClearError();
      }
      var stored := OpenStateValue(body);
      if stored.Some? && Hashable(lockId) {
        openStateData := openStateData[lockId := stored.value];
      }
    }

    /** A 401 reply: count it, ask for re-login at its threshold, raise the
        alert at its own threshold unless that re-login raised. */
    method PollUnauthorized(reauthRaises: bool)
      modifies this`consecutive401s, this`reauthCalls, errorSink
      ensures var count := old(consecutive401s) + 1;
              var reauth := count == cfg.reauthAfter;
              var afterReauth := old(Poll()).(failures := count,
                                              reauthCalls := old(reauthCalls) + (if reauth then 1 else 0));
              Poll() == if reauth && reauthRaises then afterReauth
                        else if count >= cfg.alertAfter
                        then afterReauth.(alert := RaiseAlert(old(Poll()).alert, AlertMessage(cfg.alertAfter)))
                        else afterReauth
    {
      consecutive401s := consecutive401s + 1;
      var raised := false;
      if consecutive401s == cfg.reauthAfter {
        reauthCalls := reauthCalls + 1;
        raised := reauthRaises;
      }
      if !raised && consecutive401s >= cfg.alertAfter && errorSink != null {
        errorSink.SetError(AlertMessage(cfg.alertAfter));
      }
    }

    /** `async_query_open_state`: one reply per entry of the lock list. */
    method QueryOpenState(inputs: seq<StateReply>)
      requires |inputs| == |lockList|
      modifies this`openStateData, this`consecutive401s, this`reauthCalls, errorSink
      ensures Poll() == OpenStateCycle(cfg, old(Poll()), lockList, inputs)
    {
      if lockList == [] {
        return;
      }
      var i := 0;
      while i < |lockList|
        invariant 0 <= i <= |lockList|
        invariant Poll() == OpenStateCycle(cfg, old(Poll()), lockList[..i], inputs[..i])
      {
        assert lockList[..i + 1][..i] == lockList[..i] && inputs[..i + 1][..i] == inputs[..i];
        var lockId := LockId(lockList[i]);
        if Truthy(lockId) {
          PollLock(lockId, inputs[i]);
        }
        assert Poll() == OpenStateCycle(cfg, old(Poll()), lockList[..i + 1], inputs[..i + 1]);
        i := i + 1;
      }
      assert lockList[..i] == lockList && inputs[..i] == inputs;
    }

    /** `async_query_lock_details`: the map is emptied first, then refilled. */
    method QueryLockDetails(replies: seq<Response>) returns (details: map<Json, map<string, Json>>)
      requires |replies| == |lockList|
      modifies this`detailsData
      ensures detailsData == DetailsCycle(lockList, replies) && details == detailsData
    {
      detailsData := map[];
      if lockList == [] {
        return detailsData;
      }
      var i := 0;
      while i < |lockList|
        invariant 0 <= i <= |lockList|
        invariant detailsData == DetailsCycle(lockList[..i], replies[..i])
      {
        assert lockList[..i + 1][..i] == lockList[..i] && replies[..i + 1][..i] == replies[..i];
        var lockId := LockId(lockList[i]);
        if Truthy(lockId) {
          var record := DetailRecord(replies[i]);
          if record.Some? && Hashable(lockId) {
            detailsData := detailsData[lockId := record.value];
          }
        }
        i := i + 1;
      }
      assert lockList[..i] == lockList && replies[..i] == replies;
      details := detailsData;
    }

    /** `async_send_lock_command`: up to `lockRetries` attempts, stopping at the
        first accepted one; `replies[k]` answers attempt `k`. */
    method SendLockCommand(lockId: Json, lock: bool, replies: seq<Response>)
      returns (ok: bool, requests: seq<LockCommand>)
      ensures |requests| <= cfg.lockRetries
      ensures forall r :: r in requests ==> r == LockCommand(lockId, lock)
      ensures ok <==> exists k :: 0 <= k < cfg.lockRetries && CommandAccepted(Nth(replies, k))
      ensures ok ==> |requests| > 0 && CommandAccepted(Nth(replies, |requests| - 1))
      ensures forall k :: 0 <= k < |requests| - 1 ==> !CommandAccepted(Nth(replies, k))
      ensures !ok ==> |requests| == cfg.lockRetries
    {
      requests := [];
      var attempt := 0;
      while attempt < cfg.lockRetries
        invariant 0 <= attempt <= cfg.lockRetries
        invariant |requests| == attempt
        invariant forall r :: r in requests ==> r == LockCommand(lockId, lock)
        invariant forall k :: 0 <= k < attempt ==> !CommandAccepted(Nth(replies, k))
      {
        requests := requests + [LockCommand(lockId, lock)];
        if CommandAccepted(Nth(replies, attempt)) {
          return true, requests;
        }
        attempt := attempt + 1;
      }
      ok := false;
    }

    /** The history sensor's constructor: it installs itself only when no
        history sensor has done so before. */
    method RegisterHistorySensor(s: HistorySensor)
      modifies this`historySink
      ensures historySink == if old(historySink) == null then s else old(historySink)
    {
      if historySink == null {
        historySink := s;
      }
    }

    /** The error sensor's constructor: it always installs itself. */
    method RegisterErrorSensor(s: CloudErrorSensor)
      modifies this`errorSink
      ensures errorSink == s
    {
      errorSink := s;
    }

    /** The history and error sensors built for one lock, each installing
        itself on construction. */
    method AttachLockSensors(lock: Json) returns (h: HistorySensor, e: CloudErrorSensor)
      modifies this`historySink, this`errorSink
      ensures h.lockId == LockId(lock) && e.lockId == LockId(lock)
      ensures historySink == if old(historySink) == null then h else old(historySink)
      ensures errorSink == e
    {
      h := new HistorySensor(lock);
      RegisterHistorySensor(h);
      e := new CloudErrorSensor(lock);
      RegisterErrorSensor(e);
    }

    /** The history and error sensors `create_sensors` builds, lock by lock,
        each installing itself on construction: the history slot ends up with
        the first history sensor ever built and the error slot with the one
        built for the last lock that has an id. */
    method AttachSensors(locks: seq<Json>)
      modifies this`historySink, this`errorSink
      ensures old(historySink) != null ==> historySink == old(historySink)
      ensures old(historySink) == null && WithLockId(locks) != [] ==>
                historySink != null && historySink.lockId == LockId(WithLockId(locks)[0])
      ensures WithLockId(locks) == [] ==> historySink == old(historySink) && errorSink == old(errorSink)
      ensures WithLockId(locks) != [] ==>
                errorSink != null && errorSink.lockId == LockId(WithLockId(locks)[|WithLockId(locks)| - 1])
    {
      ghost var kept: seq<Json> := [];
      var i := 0;
      while i < |locks|
        invariant 0 <= i <= |locks|
        invariant kept == WithLockId(locks[..i])
        invariant old(historySink) != null ==> historySink == old(historySink)
        invariant old(historySink) == null && kept != [] ==>
                    historySink != null && historySink.lockId == LockId(kept[0])
        invariant kept == [] ==> historySink == old(historySink) && errorSink == old(errorSink)
        invariant kept != [] ==> errorSink != null && errorSink.lockId == LockId(kept[|kept| - 1])
      {
        WithLockIdSnoc(locks, i);
        if HasLockId(locks[i]) {
          var h, e := AttachLockSensors(locks[i]);
          kept := kept + [locks[i]];
        }
        i := i + 1;
      }
      assert locks[..i] == locks;
    }

    /** `update_history_sensor(lock_id, entries)` as the history poll calls it:
        only the installed history sensor hears it, and it ignores every lock
        but its own. */
    method UpdateHistorySensor(lockId: Json, entries: seq<Json>, recordTypes: map<Json, string>)
      modifies historySink
      ensures historySink != null && PyEq(lockId, historySink.lockId) ==>
                historySink.latestEntries == entries && historySink.ShowsEntries(recordTypes)
      ensures historySink != null && !PyEq(lockId, historySink.lockId) ==>
                unchanged(historySink)
    {
      if historySink != null {
        historySink.ExternalUpdate(lockId, entries, recordTypes);
      }
    }
  }
}
