/**
 * The token manager: the access, refresh and login tokens and the expiry it
 * holds, the options record it persists them to, and the single refresh
 * timer it keeps armed.
 *
 * Time is integer seconds; `now` is an input and one value serves a whole
 * call. Every request's outcome is an input: a call consumes replies from a
 * script `net` starting at position `pos` and reports where it stopped. The
 * refresh-failure fallback (log in, then refresh again) recurses without a
 * bound in the original; here it carries `fuel`, and a failed refresh with no
 * fuel left ends the chain as `Exhausted`.
 */
module Tokens {
  import opened Json
  import opened Payloads

  /** The four values the manager keeps. `expiry` is None until first set. */
  datatype TokenSet = TokenSet(access: Json, refresh: Json, expiry: Option<int>, login: Json)

  /** `_is_token_valid`: an access token is held and has not yet expired. */
  predicate IsTokenValid(t: TokenSet, now: int)
  {
    Truthy(t.access) && t.expiry.Some? && now < t.expiry.value
  }

  /** Validity only lapses: a token valid at some time was valid at every
      earlier time, and none is valid from its own expiry on. */
  lemma ValidityOnlyLapses(t: TokenSet, earlier: int, later: int)
    requires earlier <= later
    ensures IsTokenValid(t, later) ==> IsTokenValid(t, earlier)
    ensures t.expiry.Some? && t.expiry.value <= later ==> !IsTokenValid(t, later)
  {
  }

  /** `_perform_login` against one reply: `None` where it raises. */
  function LoginAttempt(t: TokenSet, resp: Response): (r: Option<TokenSet>)
    ensures r.Some? <==>
              && resp.Reply? && resp.status == 200
              && PyEqInt(Get(resp.body, "code"), 200) && Has(resp.body, "data")
              && resp.body.fields["data"].Obj?
    // a successful login sets the login and refresh tokens and nothing else
    ensures r.Some? ==>
              && r.value.login == Get(resp.body.fields["data"], "token")
              && r.value.refresh == Get(resp.body.fields["data"], "refreshToken")
              && r.value.access == t.access && r.value.expiry == t.expiry
  {
    match resp
    case Reply(status, body) =>
      if status != 200 then None
      else if PyEqInt(Get(body, "code"), 200) && Has(body, "data") then
        var data := body.fields["data"];
        if data.Obj? then Some(t.(login := Get(data, "token"), refresh := Get(data, "refreshToken")))
        else None
      else None
    case _ => None
  }

  /** The tokens after one refresh request, and whether it succeeded. A reply
      that carries `access_token` but an `expires_in` that is not a number
      fails after the access and refresh tokens were already replaced. */
  datatype RefreshStep = RefreshStep(tokens: TokenSet, ok: bool)

  /** `expires_in` with its default of an hour. */
  function ExpiresIn(body: Json): Json
  {
    GetOr(body, "expires_in", Int(3600))
  }

  /** A JSON number of seconds as `timedelta(seconds=...)` accepts it. */
  function Seconds(v: Json): Option<int>
  {
    match v
    case Int(i) => Some(i)
    case Bool(b) => Some(if b then 1 else 0)
    case _ => None
  }

  function RefreshAttempt(t: TokenSet, resp: Response, now: int): (r: RefreshStep)
    // refreshing never touches the login token
    ensures r.tokens.login == t.login
    ensures r.ok <==> resp.Reply? && resp.status == 200 && Has(resp.body, "access_token")
                      && Seconds(ExpiresIn(resp.body)).Some?
    // a 200 reply with an access token installs it and keeps the old refresh
    // token unless a new one came, even when `expires_in` then fails
    ensures resp.Reply? && resp.status == 200 && Has(resp.body, "access_token") ==>
              && r.tokens.access == resp.body.fields["access_token"]
              && r.tokens.refresh == GetOr(resp.body, "refresh_token", t.refresh)
    // a successful refresh expires `expires_in` from now
    ensures r.ok ==> r.tokens.expiry == Some(now + Seconds(ExpiresIn(resp.body)).value)
    // a reply without an access token changes nothing
    ensures !(resp.Reply? && resp.status == 200 && Has(resp.body, "access_token")) ==> r.tokens == t
    ensures !r.ok ==> r.tokens.expiry == t.expiry
  {
    match resp
    case Reply(status, body) =>
      if status == 200 && Has(body, "access_token") then
        var replaced := t.(access := body.fields["access_token"],
                           refresh := GetOr(body, "refresh_token", t.refresh));
        var seconds := Seconds(ExpiresIn(body));
        if seconds.Some? then RefreshStep(replaced.(expiry := Some(now + seconds.value)), true)
        else RefreshStep(replaced, false)
      else RefreshStep(t, false)
    case _ => RefreshStep(t, false)
  }

  /** A freshly refreshed token is valid for exactly `expires_in` seconds. */
  lemma RefreshedTokenValidity(t: TokenSet, resp: Response, now: int, later: int)
    requires RefreshAttempt(t, resp, now).ok && later >= now
    ensures IsTokenValid(RefreshAttempt(t, resp, now).tokens, later) <==>
              Truthy(resp.body.fields["access_token"])
              && later - now < Seconds(ExpiresIn(resp.body)).value
  {
  }

  // ---------------------------------------------------------------------
  // The refresh chain

  datatype Outcome =
    | Refreshed        // a refresh succeeded; the tokens were stored and a timer armed
    | LoginFailed      // a login raised; the exception leaves the manager
    | Exhausted        // a refresh failed with no fuel left
    | BadStoredExpiry  // the stored expiry could not be parsed at start-up

  /** Where a chain of requests ended: how, with which tokens, and the
      position of the first reply it did not consume. */
  datatype Chain = Chain(outcome: Outcome, tokens: TokenSet, next: nat)

  /** `_perform_token_refresh`: refresh; on failure log in and start over. */
  function RefreshChain(t: TokenSet, net: seq<Response>, pos: nat, now: int, fuel: nat): (c: Chain)
    // each round consumes a refresh reply and, if it failed, a login reply
    ensures pos < c.next <= pos + 2 * fuel + 1
    ensures c.outcome == Refreshed || c.outcome == LoginFailed || c.outcome == Exhausted
    ensures c.outcome == Refreshed ==> (c.next - pos) % 2 == 1 && c.tokens.expiry.Some?
    ensures c.outcome == LoginFailed ==> (c.next - pos) % 2 == 0
    ensures c.outcome == Exhausted ==> c.next == pos + 2 * fuel + 1
    // the login token only changes through a login
    ensures c.next == pos + 1 ==> c.tokens.login == t.login
    decreases fuel
  {
    var attempt := RefreshAttempt(t, Nth(net, pos), now);
    if attempt.ok then Chain(Refreshed, attempt.tokens, pos + 1)
    else if fuel == 0 then Chain(Exhausted, attempt.tokens, pos + 1)
    else
      match LoginAttempt(attempt.tokens, Nth(net, pos + 1))
      case None => Chain(LoginFailed, attempt.tokens, pos + 2)
      case Some(relogged) => RefreshChain(relogged, net, pos + 2, now, fuel - 1)
  }

  /** Fuel only matters when it runs out: a chain that ended otherwise ends
      the same way with any larger bound, so it is what the unbounded
      recursion of the original does. */
  lemma {:induction false} RefreshChainMoreFuel(t: TokenSet, net: seq<Response>, pos: nat, now: int, fuel: nat, more: nat)
    requires RefreshChain(t, net, pos, now, fuel).outcome != Exhausted
    requires fuel <= more
    ensures RefreshChain(t, net, pos, now, more) == RefreshChain(t, net, pos, now, fuel)
    decreases fuel
  {
    var attempt := RefreshAttempt(t, Nth(net, pos), now);
    if !attempt.ok {
      var relogged := LoginAttempt(attempt.tokens, Nth(net, pos + 1));
      if relogged.Some? {
        RefreshChainMoreFuel(relogged.value, net, pos + 2, now, fuel - 1, more - 1);
      }
    }
  }

  /** `refresh_login_token`: log in, then run the refresh chain. */
  function Reauthenticate(t: TokenSet, net: seq<Response>, pos: nat, now: int, fuel: nat): (c: Chain)
    ensures LoginAttempt(t, Nth(net, pos)).None? <==> c.outcome == LoginFailed && c.next == pos + 1
    ensures pos < c.next
  {
    match LoginAttempt(t, Nth(net, pos))
    case None => Chain(LoginFailed, t, pos + 1)
    case Some(relogged) => RefreshChain(relogged, net, pos + 1, now, fuel)
  }

  // ---------------------------------------------------------------------
  // Persisted options

  /** The stand-in for `datetime.isoformat()`: the seconds as decimal text. */
  function ExpiryText(expiry: int): Json
  {
    Str(IntToString(expiry))
  }

  /** The stand-in for `datetime.fromisoformat()`: None where it raises. */
  function ParseExpiry(v: Json): Option<int>
  {
    if v.Str? then ParseInt(v.s) else None
  }

  const TokenKeys: set<string> := {"access_token", "refresh_token", "token_expiry", "login_token"}

  /** `_store_token`: a copy of the options with the four token keys written. */
  function StoredOptions(options: map<string, Json>, t: TokenSet): (r: map<string, Json>)
    requires t.expiry.Some?
    ensures r.Keys == options.Keys + TokenKeys
    ensures forall key :: key in options && key !in TokenKeys ==> r[key] == options[key]
    ensures r["access_token"] == t.access && r["refresh_token"] == t.refresh
    ensures r["login_token"] == t.login && ParseExpiry(r["token_expiry"]) == t.expiry
  {
    ParseIntRoundTrip(t.expiry.value);
    options["access_token" := t.access]["refresh_token" := t.refresh]
           ["token_expiry" := ExpiryText(t.expiry.value)]["login_token" := t.login]
  }

  /** `_load_stored_tokens`: the tokens read back, and whether the stored
      expiry parsed. All three tokens are read before the expiry; an absent
      or empty expiry leaves the current one, and an unparseable one raises
      with the expiry left as it was. */
  datatype Loaded = Loaded(tokens: TokenSet, ok: bool)

  function LoadStored(options: map<string, Json>, t: TokenSet): (r: Loaded)
    ensures r.tokens.access == Lookup(options, "access_token")
    ensures r.tokens.refresh == Lookup(options, "refresh_token")
    ensures r.tokens.login == Lookup(options, "login_token")
    ensures !r.ok <==> Truthy(Lookup(options, "token_expiry")) && ParseExpiry(Lookup(options, "token_expiry")).None?
    ensures Truthy(Lookup(options, "token_expiry")) && r.ok ==> r.tokens.expiry == ParseExpiry(Lookup(options, "token_expiry"))
    ensures !(Truthy(Lookup(options, "token_expiry")) && r.ok) ==> r.tokens.expiry == t.expiry
  {
    var read := t.(access := Lookup(options, "access_token"), refresh := Lookup(options, "refresh_token"),
                   login := Lookup(options, "login_token"));
    var stored := Lookup(options, "token_expiry");
    if !Truthy(stored) then Loaded(read, true)
    else match ParseExpiry(stored)
      case None => Loaded(read, false)
      case Some(expiry) => Loaded(read.(expiry := Some(expiry)), true)
  }

  /** What is stored is what is loaded back, whatever else the options hold. */
  lemma StoreLoadRoundTrip(options: map<string, Json>, t: TokenSet, current: TokenSet)
    requires t.expiry.Some?
    ensures LoadStored(StoredOptions(options, t), current) == Loaded(t, true)
  {
    var stored := StoredOptions(options, t);
    assert Lookup(stored, "token_expiry") == ExpiryText(t.expiry.value);
  }

  /** `initialize`: load, then refresh if the cached token is valid, else log
      in and refresh. */
  function InitializeRun(options: map<string, Json>, t: TokenSet, net: seq<Response>, pos: nat, now: int, fuel: nat): (c: Chain)
    ensures c.outcome == BadStoredExpiry <==> !LoadStored(options, t).ok
    ensures c.outcome == BadStoredExpiry ==> c.next == pos
  {
    var loaded := LoadStored(options, t);
    if !loaded.ok then Chain(BadStoredExpiry, loaded.tokens, pos)
    else if IsTokenValid(loaded.tokens, now) then RefreshChain(loaded.tokens, net, pos, now, fuel)
    else Reauthenticate(loaded.tokens, net, pos, now, fuel)
  }

  /** A valid cached token starts with a refresh, and no login happens
      unless that refresh fails; an invalid one starts with a login. */
  lemma InitializeOrder(options: map<string, Json>, t: TokenSet, net: seq<Response>, pos: nat, now: int, fuel: nat)
    requires LoadStored(options, t).ok
    ensures var loaded := LoadStored(options, t).tokens;
            var c := InitializeRun(options, t, net, pos, now, fuel);
            && (IsTokenValid(loaded, now) && RefreshAttempt(loaded, Nth(net, pos), now).ok
                ==> c == Chain(Refreshed, RefreshAttempt(loaded, Nth(net, pos), now).tokens, pos + 1))
            && (!IsTokenValid(loaded, now) && LoginAttempt(loaded, Nth(net, pos)).None?
                ==> c.outcome == LoginFailed && c.next == pos + 1)
  {
  }

  /** `max(expiry - buffer - now, 30)`: the delay before the next refresh. */
  function RefreshDelay(expiry: int, now: int, bufferMinutes: nat): (d: int)
    ensures d >= 30
    ensures expiry - bufferMinutes * 60 - now >= 30 ==> d == expiry - bufferMinutes * 60 - now
    ensures expiry - bufferMinutes * 60 - now < 30 ==> d == 30
  {
    var raw := expiry - bufferMinutes * 60 - now;
    if raw > 30 then raw else 30
  }

  // ---------------------------------------------------------------------
  // Timers

  datatype TimerState = Pending | Cancelled | Fired

  /** One `async_call_later` registration. */
  datatype Timer = Timer(delay: int, state: TimerState)

  /** Calling the stored unsubscribe handle: a pending timer is cancelled;
      one that has fired or was cancelled is left as it is. */
  function CancelAt(timers: seq<Timer>, slot: Option<nat>): (r: seq<Timer>)
    ensures |r| == |timers|
    ensures forall i :: 0 <= i < |r| && Some(i) != slot ==> r[i] == timers[i]
    ensures forall i :: 0 <= i < |r| && Some(i) == slot ==> r[i].state != Pending && r[i].delay == timers[i].delay
  {
    if slot.Some? && slot.value < |timers| && timers[slot.value].state == Pending
    then timers[slot.value := timers[slot.value].(state := Cancelled)]
    else timers
  }

  /** Only the timer whose handle is held can be pending. */
  predicate OnlyHeldPending(timers: seq<Timer>, slot: Option<nat>)
  {
    forall i :: 0 <= i < |timers| && timers[i].state == Pending ==> slot == Some(i)
  }

  /** At most one timer is ever pending. */
  lemma AtMostOnePending(timers: seq<Timer>, slot: Option<nat>, i: nat, j: nat)
    requires OnlyHeldPending(timers, slot)
    requires i < |timers| && j < |timers| && timers[i].state == Pending && timers[j].state == Pending
    ensures i == j
  {
    assert slot == Some(i) && slot == Some(j);
  }

  class TokenManager {
    const bufferMinutes: nat
    var access: Json                  // access_token
    var refresh: Json                 // refresh_token_value
    var expiry: Option<int>           // token_expiry
    var login: Json                   // _login_token
    var options: map<string, Json>    // config_entry.options
    var timers: seq<Timer>            // every timer ever armed
    var unsub: Option<nat>            // _refresh_unsub: the handle of timers[unsub]

    predicate Valid()
      reads this
    {
      && (unsub.Some? ==> unsub.value < |timers|)
      && OnlyHeldPending(timers, unsub)
    }

    function Tokens(): TokenSet
      reads this
    {
      TokenSet(access, refresh, expiry, login)
    }

    constructor (options: map<string, Json>, bufferMinutes: nat)
      ensures Valid()
      ensures Tokens() == TokenSet(Null, Null, None, Null)
      ensures this.options == options && this.bufferMinutes == bufferMinutes
      ensures timers == [] && unsub == None
    {
      this.bufferMinutes := bufferMinutes;
      access, refresh, expiry, login := Null, Null, None, Null;
      this.options := options;
      timers, unsub := [], None;
    }

    /** `_load_stored_tokens`; false where parsing the stored expiry raises. */
    method LoadStoredTokens() returns (ok: bool)
      modifies this`access, this`refresh, this`expiry, this`login
      ensures ok == LoadStored(options, old(Tokens())).ok
      ensures Tokens() == LoadStored(options, old(Tokens())).tokens
    {
      access := Lookup(options, "access_token");
      refresh := Lookup(options, "refresh_token");
      var stored := Lookup(options, "token_expiry");
      login := Lookup(options, "login_token");
      if Truthy(stored) {
        var parsed := ParseExpiry(stored);
        if parsed.None? {
          return false;
        }
        expiry := parsed;
      }
      ok := true;
    }

    /** `_perform_login` against one reply; false where it raises. */
    method Login(resp: Response) returns (ok: bool)
      modifies this`login, this`refresh
      ensures ok == LoginAttempt(old(Tokens()), resp).Some?
      ensures Tokens() == if ok then LoginAttempt(old(Tokens()), resp).value else old(Tokens())
    {
      ok := false;
      if resp.Reply? && resp.status == 200 {
        var body := resp.body;
        if PyEqInt(Get(body, "code"), 200) && Has(body, "data") {
          var data := body.fields["data"];
          if data.Obj? {
            login := Get(data, "token");
            refresh := Get(data, "refreshToken");
            ok := true;
          }
        }
      }
    }

    /** `_set_token_expiry` */
    method SetTokenExpiry(expiresIn: int, now: int)
      modifies this`expiry
      ensures expiry == Some(now + expiresIn)
    {
      expiry := Some(now + expiresIn);
    }

    /** `_store_token` */
    method StoreToken()
      requires expiry.Some?
      modifies this`options
      ensures options == StoredOptions(old(options), Tokens())
    {
      ParseIntRoundTrip(expiry.value);
      var copy := options;
      copy := copy["access_token" := access]["refresh_token" := refresh];
      copy := copy["token_expiry" := ExpiryText(expiry.value)]["login_token" := login];
      options := copy;
    }

    /** `_schedule_token_refresh`: cancel the held timer, then arm a new one. */
    method ScheduleTokenRefresh(now: int)
      requires Valid() && expiry.Some?
      modifies this`timers, this`unsub
      ensures timers == CancelAt(old(timers), old(unsub))
                        + [Timer(RefreshDelay(expiry.value, now, bufferMinutes), Pending)]
      ensures unsub == Some(|timers| - 1) && Valid()
      ensures forall i :: 0 <= i < |timers| - 1 ==> timers[i].state != Pending
    {
      if unsub.Some? {
        timers := CancelAt(timers, unsub);
      }
      var delay := expiry.value - bufferMinutes * 60 - now;
      if delay < 30 {
        delay := 30;
      }
      timers := timers + [Timer(delay, Pending)];
      unsub := Some(|timers| - 1);
    }

    /** What a successful refresh leaves behind, given the options and timers
        it started from: the tokens stored over those options, the held timer
        cancelled, and a new timer armed and held. */
    ghost predicate Committed(options0: map<string, Json>, timers0: seq<Timer>, unsub0: Option<nat>, now: int)
      reads this
    {
      && expiry.Some?
      && options == StoredOptions(options0, Tokens())
      && timers == CancelAt(timers0, unsub0) + [Timer(RefreshDelay(expiry.value, now, bufferMinutes), Pending)]
      && unsub == Some(|timers| - 1)
    }

    /** One refresh request of `_perform_token_refresh`, up to the point where
        its failure would be caught. */
    method RefreshOnce(resp: Response, now: int) returns (ok: bool)
      requires Valid()
      modifies this`access, this`refresh, this`expiry, this`options, this`timers, this`unsub
      ensures ok == RefreshAttempt(old(Tokens()), resp, now).ok
      ensures Tokens() == RefreshAttempt(old(Tokens()), resp, now).tokens
      ensures Valid()
      ensures ok ==> Committed(old(options), old(timers), old(unsub), now)
      ensures !ok ==> options == old(options) && timers == old(timers) && unsub == old(unsub)
    {
      ghost var attempt := RefreshAttempt(Tokens(), resp, now);
      ghost var options0, timers0, unsub0 := options, timers, unsub;
      ok := false;
      if resp.Reply? && resp.status == 200 && Has(resp.body, "access_token") {
        access := resp.body.fields["access_token"];
        refresh := GetOr(resp.body, "refresh_token", refresh);
        var seconds := Seconds(ExpiresIn(resp.body));
        if seconds.Some? {
          SetTokenExpiry(seconds.value, now);
          assert Tokens() == attempt.tokens;
          StoreToken();
          assert options == StoredOptions(options0, attempt.tokens);
          ScheduleTokenRefresh(now);
          assert timers == CancelAt(timers0, unsub0)
                           + [Timer(RefreshDelay(expiry.value, now, bufferMinutes), Pending)];
          ok := true;
        } else {
          assert Tokens() == attempt.tokens;
        }
      }
    }

    /** `_perform_token_refresh`, with `fuel` further rounds allowed. */
    method Refresh(net: seq<Response>, pos: nat, now: int, fuel: nat) returns (outcome: Outcome, next: nat)
      requires Valid()
      modifies this`access, this`refresh, this`expiry, this`login, this`options, this`timers, this`unsub
      decreases fuel
      ensures Chain(outcome, Tokens(), next) == RefreshChain(old(Tokens()), net, pos, now, fuel)
      ensures Valid()
      ensures outcome == Refreshed ==> Committed(old(options), old(timers), old(unsub), now)
      ensures outcome != Refreshed ==> options == old(options) && timers == old(timers) && unsub == old(unsub)
    {
      ghost var chain := RefreshChain(Tokens(), net, pos, now, fuel);
      ghost var attempt := RefreshAttempt(Tokens(), Nth(net, pos), now);
      var ok := RefreshOnce(Nth(net, pos), now);
      if ok {
        assert chain == Chain(Refreshed, attempt.tokens, pos + 1);
        return Refreshed, pos + 1;
      }
      if fuel == 0 {
        assert chain == Chain(Exhausted, attempt.tokens, pos + 1);
        return Exhausted, pos + 1;
      }
      ghost var relogged := LoginAttempt(attempt.tokens, Nth(net, pos + 1));
      var loggedIn := Login(Nth(net, pos + 1));
      if !loggedIn {
        assert chain == Chain(LoginFailed, attempt.tokens, pos + 2);
        return LoginFailed, pos + 2;
      }
      assert chain == RefreshChain(relogged.value, net, pos + 2, now, fuel - 1);
      outcome, next := Refresh(net, pos + 2, now, fuel - 1);
    }

    /** `_handle_token_refresh`: the armed timer `k` fires. */
    method HandleTokenRefresh(k: nat, net: seq<Response>, pos: nat, now: int, fuel: nat)
      returns (outcome: Outcome, next: nat)
      requires Valid() && k < |timers| && timers[k].state == Pending
      modifies this`access, this`refresh, this`expiry, this`login, this`options, this`timers, this`unsub
      ensures Chain(outcome, Tokens(), next) == RefreshChain(old(Tokens()), net, pos, now, fuel)
      ensures Valid()
      // a chain that does not end in a successful refresh leaves no timer armed
      ensures outcome != Refreshed ==> forall i :: 0 <= i < |timers| ==> timers[i].state != Pending
      ensures outcome == Refreshed ==> |timers| == |old(timers)| + 1 && timers[k].state == Fired
      // a successful refresh stores the tokens and arms a new timer, the
      // fired one standing as the timer the held handle names
      ensures outcome == Refreshed ==>
                Committed(old(options), old(timers)[k := old(timers)[k].(state := Fired)], old(unsub), now)
    {
      timers := timers[k := timers[k].(state := Fired)];
      outcome, next := Refresh(net, pos, now, fuel);
    }

    /** `refresh_login_token`: the coordinator's re-authentication hook. */
    method RefreshLoginToken(net: seq<Response>, pos: nat, now: int, fuel: nat) returns (outcome: Outcome, next: nat)
      requires Valid()
      modifies this`access, this`refresh, this`expiry, this`login, this`options, this`timers, this`unsub
      ensures Chain(outcome, Tokens(), next) == Reauthenticate(old(Tokens()), net, pos, now, fuel)
      ensures Valid()
      ensures outcome == Refreshed ==> Committed(old(options), old(timers), old(unsub), now)
      ensures outcome != Refreshed ==> options == old(options) && timers == old(timers) && unsub == old(unsub)
    {
      var loggedIn := Login(Nth(net, pos));
      if !loggedIn {
        return LoginFailed, pos + 1;
      }
      outcome, next := Refresh(net, pos + 1, now, fuel);
    }

    /** `initialize` */
    method Initialize(net: seq<Response>, pos: nat, now: int, fuel: nat) returns (outcome: Outcome, next: nat)
      requires Valid()
      modifies this`access, this`refresh, this`expiry, this`login, this`options, this`timers, this`unsub
      ensures Chain(outcome, Tokens(), next) == InitializeRun(old(options), old(Tokens()), net, pos, now, fuel)
      ensures Valid()
      ensures outcome == Refreshed ==> Committed(old(options), old(timers), old(unsub), now)
      ensures outcome != Refreshed ==> options == old(options) && timers == old(timers) && unsub == old(unsub)
    {
      var loaded := LoadStoredTokens();
      if !loaded {
        return BadStoredExpiry, pos;
      }
      if Truthy(access) && expiry.Some? && now < expiry.value {
        outcome, next := Refresh(net, pos, now, fuel);
      } else {
        outcome, next := RefreshLoginToken(net, pos, now, fuel);
      }
    }

    /** `async_shutdown`: cancel the held timer and drop its handle. */
    method Shutdown()
      requires Valid()
      modifies this`timers, this`unsub
      ensures timers == CancelAt(old(timers), old(unsub)) && unsub == None && Valid()
      ensures forall i :: 0 <= i < |timers| ==> timers[i].state != Pending
      // a second shutdown changes nothing
      ensures old(unsub) == None ==> timers == old(timers)
    {
      if unsub.Some? {
        timers := CancelAt(timers, unsub);
        unsub := None;
      }
    }
  }
}
