/**
 * What the cloud API hands back, with the network abstracted away, and the
 * per-response decisions the coordinator takes: which replies carry a lock
 * list, an open state, a detail record, a command acknowledgement or a page
 * of history.
 */
module Payloads {
  import opened Json

  /** The outcome of one HTTP exchange. */
  datatype Response =
    | TransportError                  // connection refused, timeout, reset
    | Unparseable(status: int)        // a reply whose body is not JSON
    | Reply(status: int, body: Json)  // a reply with a decoded JSON body

  /** The reply at position `k` of a scripted sequence of replies; a position
      past the end reads as a transport failure. */
  function Nth(replies: seq<Response>, k: nat): Response
  {
    if k < |replies| then replies[k] else TransportError
  }

  // ---------------------------------------------------------------------
  // Lock records

  /** `lock.get("lockId")` */
  function LockId(lock: Json): Json
  {
    Get(lock, "lockId")
  }

  /** The guard `if lock_id:` that every per-lock loop applies. */
  predicate HasLockId(lock: Json)
  {
    Truthy(LockId(lock))
  }

  /** The locks, in order, that the per-lock loops act on. */
  function WithLockId(locks: seq<Json>): (r: seq<Json>)
    ensures |r| <= |locks|
  {
    if locks == [] then []
    else WithLockId(locks[..|locks| - 1])
         + (if HasLockId(locks[|locks| - 1]) then [locks[|locks| - 1]] else [])
  }

  /** The locks kept are exactly the locks of the list that have an id. */
  lemma {:induction false} WithLockIdMembers(locks: seq<Json>)
    ensures forall x :: x in WithLockId(locks) <==> x in locks && HasLockId(x)
  {
    if locks != [] {
      var n := |locks| - 1;
      WithLockIdMembers(locks[..n]);
      assert locks == locks[..n] + [locks[n]];
    }
  }

  /** When every lock has an id, nothing is filtered out. */
  lemma {:induction false} WithLockIdKeepsAll(locks: seq<Json>)
    requires forall k :: 0 <= k < |locks| ==> HasLockId(locks[k])
    ensures WithLockId(locks) == locks
  {
    if locks != [] {
      WithLockIdKeepsAll(locks[..|locks| - 1]);
    }
  }

  /** Filtering a prefix one lock longer. */
  lemma WithLockIdSnoc(locks: seq<Json>, i: nat)
    requires i < |locks|
    ensures WithLockId(locks[..i + 1])
            == WithLockId(locks[..i]) + (if HasLockId(locks[i]) then [locks[i]] else [])
  {
    assert locks[..i + 1][..i] == locks[..i];
  }

  /** Filtering is compatible with splitting the list. */
  lemma {:induction false} WithLockIdAppend(a: seq<Json>, b: seq<Json>)
    ensures WithLockId(a + b) == WithLockId(a) + WithLockId(b)
    decreases |b|
  {
    if b == [] {
      assert a + b == a;
    } else {
      var n := |b| - 1;
      var tail := if HasLockId(b[n]) then [b[n]] else [];
      assert (a + b)[..|a + b| - 1] == a + b[..n];
      assert (a + b)[|a + b| - 1] == b[n];
      assert WithLockId(a + b) == WithLockId(a + b[..n]) + tail;
      WithLockIdAppend(a, b[..n]);
      assert WithLockId(b) == WithLockId(b[..n]) + tail;
    }
  }

  // ---------------------------------------------------------------------
  // Per-response decisions

  /** The lock list a reply to the key-list request yields: the JSON must
      parse, the status must be 200 and the object must carry `list`. */
  function LockListOf(resp: Response): (r: Option<seq<Json>>)
    ensures r.Some? <==> resp.Reply? && resp.status == 200 && Has(resp.body, "list")
                         && resp.body.fields["list"].Arr?
    ensures r.Some? ==> r.value == resp.body.fields["list"].items
  {
    match resp
    case Reply(status, body) =>
      if status == 200 && Has(body, "list") && body.fields["list"].Arr?
      then Some(body.fields["list"].items) else None
    case _ => None
  }

  /** What a parsed open-state reply with status 200 writes for its lock:
      `Some(v)` stores `v`, `None` leaves the stored state alone. */
  function OpenStateValue(body: Json): (r: Option<Json>)
    // a gateway-busy reply (-3003) never overwrites the stored state
    ensures Has(body, "code") && PyEqInt(body.fields["code"], -3003) ==> r.None?
    // nor does any other code but 200
    ensures Has(body, "code") && !PyEqInt(body.fields["code"], 200) ==> r.None?
    // the wrapped shape stores data.state
    ensures (Has(body, "code") && PyEqInt(body.fields["code"], 200) && Has(body, "data")
             && body.fields["data"].Obj?) ==> r == Some(Get(body.fields["data"], "state"))
    // code 200 without `data` reads `state` of `{}`, so it stores None
    ensures Has(body, "code") && PyEqInt(body.fields["code"], 200) && !Has(body, "data") ==> r == Some(Null)
    // a `data` that is not an object raises at `.get`, which stores nothing
    ensures (Has(body, "code") && PyEqInt(body.fields["code"], 200) && Has(body, "data")
             && !body.fields["data"].Obj?) ==> r.None?
    // the bare shape stores state
    ensures !Has(body, "code") && Has(body, "state") ==> r == Some(body.fields["state"])
    // anything else, including a body that is not an object, stores nothing
    ensures r.Some? ==> Has(body, "code") || Has(body, "state")
  {
    if !body.Obj? then None
    else if Has(body, "code") then
      if PyEqInt(body.fields["code"], 200) then
        var data := GetOr(body, "data", Obj(map[]));
        if data.Obj? then Some(Get(data, "state")) else None
      else None
    else if Has(body, "state") then Some(body.fields["state"])
    else None
  }

  /** The detail record a reply yields for its lock, or `None` to skip it. */
  function DetailRecord(resp: Response): (r: Option<map<string, Json>>)
    ensures r.Some? ==> resp.Reply? && resp.status == 200 && resp.body.Obj?
    // gateway busy is a skip
    ensures resp.Reply? && PyEqInt(Get(resp.body, "code"), -3003) ==> r.None?
    // the wrapped shape yields the inner record, the bare shape the whole body
    ensures r.Some? ==>
              || (PyEqInt(Get(resp.body, "code"), 200) && Get(resp.body, "data").Obj?
                  && r.value == Get(resp.body, "data").fields)
              || ("lockId" in resp.body.fields && r.value == resp.body.fields)
    // and each shape does yield its record, tried in that order
    ensures resp.Reply? && resp.status == 200 && resp.body.Obj?
            && PyEqInt(Get(resp.body, "code"), 200) && Get(resp.body, "data").Obj?
            ==> r == Some(Get(resp.body, "data").fields)
    ensures resp.Reply? && resp.status == 200 && resp.body.Obj?
            && !(PyEqInt(Get(resp.body, "code"), 200) && Get(resp.body, "data").Obj?)
            && !PyEqInt(Get(resp.body, "code"), -3003) && Has(resp.body, "lockId")
            ==> r == Some(resp.body.fields)
  {
    match resp
    case Reply(status, body) =>
      if status != 200 || !body.Obj? then None
      else if PyEqInt(Get(body, "code"), 200) && Get(body, "data").Obj? then
        Some(Get(body, "data").fields)
      else if PyEqInt(Get(body, "code"), -3003) then None
      else if Has(body, "lockId") then Some(body.fields)
      else None
    case _ => None
  }

  /** A record in the bare shape, which the wrapped shape could carry too. */
  predicate BareRecord(d: map<string, Json>)
  {
    && "lockId" in d
    && !(PyEqInt(Lookup(d, "code"), 200) && Lookup(d, "data").Obj?)
    && !PyEqInt(Lookup(d, "code"), -3003)
  }

  /** Both accepted shapes of a detail reply give the same record for the
      same field content. */
  lemma WrappedAndBareAgree(d: map<string, Json>)
    requires BareRecord(d)
    ensures DetailRecord(Reply(200, Obj(map["code" := Int(200), "data" := Obj(d)]))) == Some(d)
    ensures DetailRecord(Reply(200, Obj(d))) == Some(d)
  {
    var wrapped := Obj(map["code" := Int(200), "data" := Obj(d)]);
    assert Get(wrapped, "code") == Int(200);
    assert Get(wrapped, "data") == Obj(d);
    assert Get(Obj(d), "code") == Lookup(d, "code");
    assert Get(Obj(d), "data") == Lookup(d, "data");
  }

  /** A lock or unlock request succeeded: status 200 and `errcode == 0`. */
  predicate CommandAccepted(resp: Response)
  {
    resp.Reply? && resp.status == 200 && resp.body.Obj? && PyEqInt(Get(resp.body, "errcode"), 0)
  }

  /** The history page a reply yields; every failure reads as no history. */
  function HistoryOf(resp: Response): (r: seq<Json>)
    ensures r != [] ==> resp.Reply? && resp.status == 200 && Has(resp.body, "list")
    ensures (resp.Reply? && resp.status == 200 && Has(resp.body, "list")
             && resp.body.fields["list"].Arr?) ==> r == resp.body.fields["list"].items
  {
    match resp
    case Reply(status, body) =>
      if status == 200 && Has(body, "list") && body.fields["list"].Arr?
      then body.fields["list"].items else []
    case _ => []
  }
}
