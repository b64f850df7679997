# Sifely Cloud integration — a Dafny model

This project models the core of the `sifely_cloud` Home Assistant integration, which drives Sifely smart locks through the Sifely cloud API. It covers four parts:

- **The coordinator** (`SifelyCoordinator`):
  - fetches the lock list;
  - polls each lock's open state and detail record;
  - counts consecutive HTTP 401 replies across the account, with a re-login threshold and an alert threshold;
  - sends lock and unlock commands with a bounded number of attempts;
  - fetches lock history.
- **The token manager** (`SifelyTokenManager`):
  - logs in and refreshes the access token;
  - falls back to a fresh login when a refresh fails;
  - persists the tokens into the config entry's options;
  - keeps a single refresh timer armed.
- **The entity platforms** (lock, sensor, binary sensor) and the **device-registry record**: the pure mappings from coordinator data to entity values, and the entity state the platforms update in place.
- **The callback slots** that sensor entities install on the coordinator.

The network is replaced by an input datatype, `Payloads.Response`, with three cases:

- a transport failure;
- a reply whose body is not JSON;
- a status plus a decoded JSON body (`Json.Json`).

Every request's outcome is such an input. A call that makes several requests takes them as a sequence, and a position past the end reads as a transport failure. The clock is an integer `now` in seconds.

The Python semantics the code depends on are written out in module `Json`:

- truthiness;
- `dict.get`;
- `==` against integer literals, where `True == 1`;
- `str()` and `int()` on text;
- ASCII `lower()`.

Files and modules:

| file | module | models |
|---|---|---|
| `json.dfy` | `Json` | decoded JSON and the Python operations applied to it |
| `payloads.dfy` | `Payloads` | the response datatype and the per-response decisions of `sifely.py` |
| `sifely.dfy` | `Sifely` | class `Coordinator` and the poll-cycle specifications |
| `tokens.dfy` | `Tokens` | class `TokenManager` and the refresh-chain specification |
| `sensor.dfy` | `Sensor` | battery, history, cloud-error and diagnostic sensors |
| `lock.dfy` | `Lock` | class `SmartLock` and the lock platform |
| `binary_sensor.dfy` | `BinarySensor` | privacy and tamper sensors |
| `device.dfy` | `Device` | `async_register_lock_device` |

Constants come from `const.py`, which is not part of this model: the 401 thresholds, the number of command attempts, the history display limit, the refresh buffer and the record-type names. They are parameters instead:

- `Sifely.Config` holds the 401 thresholds and the number of command attempts;
- `TokenManager.bufferMinutes` holds the refresh buffer;
- `limit` and `recordTypes` are arguments of the history sensor.

`Domain` is `"sifely_cloud"`, the integration's directory name, which Home Assistant requires the domain to equal.

## Model

| member | source | states |
|---|---|---|
| Payloads.WithLockId | custom_components/sifely_cloud/lock.py:18-21 | the filter never keeps more locks than the list holds |
| Payloads.WithLockIdMembers | custom_components/sifely_cloud/lock.py:18-21 | a lock is kept iff it is in the list and its `lockId` is truthy |
| Payloads.WithLockIdKeepsAll | custom_components/sifely_cloud/lock.py:18-21 | when every lock has an id, the filter returns the whole list in order |
| Payloads.WithLockIdAppend | custom_components/sifely_cloud/lock.py:18-21 | filtering two lists joined equals joining the two filtered lists, so order is kept |
| Payloads.WithLockIdSnoc | custom_components/sifely_cloud/lock.py:18-21 | extending the list by one lock extends the filtered list by that lock exactly when it has an id |
| Payloads.LockListOf | custom_components/sifely_cloud/sifely.py:92-103 | a lock list is obtained iff the body parses, the status is 200 and the body has a `list` array, and it is that array |
| Payloads.OpenStateValue | custom_components/sifely_cloud/sifely.py:143-154 | `code` 200 stores `data.state`, which is None when `data` is absent and nothing when `data` is not an object; -3003 or any other code stores nothing; no `code` but a `state` stores `state`; otherwise nothing is stored |
| Payloads.DetailRecord | custom_components/sifely_cloud/sifely.py:206-225 | a record comes only from a 200 object reply; tried in order, the wrapped shape always gives the inner object, -3003 gives none, and otherwise a body with `lockId` always gives the whole body |
| Payloads.CommandAccepted | custom_components/sifely_cloud/sifely.py:253 | a command reply is accepted iff its status is 200 and its object body has `errcode` equal to 0; `SendLockCommand` stops at the first such reply |
| Payloads.WrappedAndBareAgree | custom_components/sifely_cloud/sifely.py:207-218 | the same fields sent wrapped (`code` 200 plus `data`) or bare yield the same detail record |
| Payloads.HistoryOf | custom_components/sifely_cloud/sifely.py:275-289 | the history is the `list` array of a 200 reply; every other outcome, including transport and parse failures, gives an empty list |
| Sifely.OpenStateStep | custom_components/sifely_cloud/sifely.py:135-172 | see the note on `Sifely.OpenStateStep` after this table |
| Sifely.OpenStateCycle | custom_components/sifely_cloud/sifely.py:123-175 | one open-state cycle is `OpenStateStep` applied to each lock with an id in list order, skipping the others; the cycle lemmas below characterise it |
| Sifely.OpenStateCycleKeys | custom_components/sifely_cloud/sifely.py:123-152 | after a cycle, every stored open state belongs to a lock that was there before or to a polled lock with a hashable id |
| Sifely.OpenStateCycleFailuresInert | custom_components/sifely_cloud/sifely.py:168-175 | a cycle whose replies are all transport failures, unparseable bodies or other statuses leaves the counter, the states and the alert as they were |
| Sifely.UnauthorizedRun | custom_components/sifely_cloud/sifely.py:156-162 | a run of n 401s raises the counter by n, leaves the states alone, and requests re-login once iff the run crosses the threshold, so once per unbroken run |
| Sifely.OpenStateCycleKeepsSensor | custom_components/sifely_cloud/sifely.py:138-166 | a cycle changes what the error sensor shows but never installs or removes it |
| Sifely.SuccessEndsRun | custom_components/sifely_cloud/sifely.py:138-141 | if the last polled lock gets a parsed 200, the cycle ends with the counter at 0 and the alert cleared, whatever came before |
| Sifely.DetailsCycle | custom_components/sifely_cloud/sifely.py:191-225 | every key of the rebuilt detail map is the hashable id of a polled lock whose reply yielded a record in this cycle |
| Sifely.DetailsCycleStores | custom_components/sifely_cloud/sifely.py:206-218 | a lock with a hashable id whose reply yields a record, with no later lock sharing its id, ends the cycle holding exactly that record |
| Sifely.Coordinator.constructor | custom_components/sifely_cloud/sifely.py:57-60 | a new coordinator has an empty lock list and empty maps, a zero counter and no sensors installed |
| Sifely.Coordinator.FetchLockList | custom_components/sifely_cloud/sifely.py:75-107 | returns the lock list exactly as `LockListOf` decides; the stored list is replaced only then, and otherwise left unchanged (the `UpdateFailed` path) |
| Sifely.Coordinator.PollLock | custom_components/sifely_cloud/sifely.py:135-166 | the coordinator's counter, open states, re-login count and error sensor move exactly as `OpenStateStep` says for one reply |
| Sifely.Coordinator.PollSucceeded | custom_components/sifely_cloud/sifely.py:138-154 | a 200 reply zeroes the counter, clears an installed error sensor and stores the parsed open state for this lock only, when there is one |
| Sifely.Coordinator.PollUnauthorized | custom_components/sifely_cloud/sifely.py:156-166 | a 401 adds one to the counter, asks for re-login when the counter reaches its threshold, and raises the alert at or past its own threshold unless that re-login raised |
| Sifely.Coordinator.QueryOpenState | custom_components/sifely_cloud/sifely.py:109-175 | the open states, counter, re-login count and error sensor end as `OpenStateCycle` over the lock list gives; an empty list changes nothing |
| Sifely.Coordinator.QueryLockDetails | custom_components/sifely_cloud/sifely.py:178-233 | the detail map is emptied and rebuilt to exactly `DetailsCycle` over the lock list, and that map is returned |
| Sifely.Coordinator.SendLockCommand | custom_components/sifely_cloud/sifely.py:236-264 | at most `lockRetries` identical requests; true iff one of the first `lockRetries` replies is a 200 with `errcode` 0; stops at the first such reply; all attempts are used on failure |
| Sifely.Coordinator.RegisterHistorySensor | custom_components/sifely_cloud/sensor.py:88-89 | the history slot takes the new sensor only when it is empty, so the first registrant wins |
| Sifely.Coordinator.RegisterErrorSensor | custom_components/sifely_cloud/sensor.py:177-178 | the error slot always takes the new sensor, so the last registrant wins |
| Sifely.Coordinator.AttachLockSensors | custom_components/sifely_cloud/sensor.py:23-24 | the history and error sensors built for one lock carry its id and install themselves under the two slot rules |
| Sifely.Coordinator.AttachSensors | custom_components/sifely_cloud/sensor.py:16-28 | after sensors are created for a lock list, the history slot holds the first history sensor ever built, which belongs to the first lock with an id, and the error slot holds the one for the last such lock |
| Sifely.Coordinator.UpdateHistorySensor | custom_components/sifely_cloud/sifely.py:344-345 | a history batch reaches only the installed history sensor, which takes it only when the lock id matches and otherwise stays unchanged |
| Tokens.LoginAttempt | custom_components/sifely_cloud/token_manager.py:57-80 | login succeeds iff status 200, `code == 200`, `data` is present and is an object; on success only the login token and the refresh token change |
| Tokens.RefreshAttempt | custom_components/sifely_cloud/token_manager.py:91-106 | see the note on `Tokens.RefreshAttempt` after this table |
| Tokens.IsTokenValid | custom_components/sifely_cloud/token_manager.py:52-55 | a cached token is valid iff an access token is held, an expiry is set and the clock is before it |
| Tokens.ValidityOnlyLapses | custom_components/sifely_cloud/token_manager.py:52-55 | a token valid at some time was valid at every earlier time, and none is valid from its expiry on |
| Tokens.RefreshedTokenValidity | custom_components/sifely_cloud/token_manager.py:52-55 | after a successful refresh, the token is valid at a later time iff the access token is non-empty and fewer than `expires_in` seconds have passed |
| Tokens.RefreshChain | custom_components/sifely_cloud/token_manager.py:82-110 | see the note on `Tokens.RefreshChain` after this table |
| Tokens.RefreshChainMoreFuel | custom_components/sifely_cloud/token_manager.py:107-110 | a chain that ends other than by running out of fuel ends identically with any larger fuel, so it is what the unbounded recursion does |
| Tokens.Reauthenticate | custom_components/sifely_cloud/token_manager.py:144-146 | re-authentication fails right after its first reply exactly when that login fails; otherwise it continues into the refresh chain |
| Tokens.StoredOptions | custom_components/sifely_cloud/token_manager.py:131-139 | the stored options keep every other key unchanged and write exactly the four token keys, whose values read back as the tokens |
| Tokens.LoadStored | custom_components/sifely_cloud/token_manager.py:42-50 | see the note on `Tokens.LoadStored` after this table |
| Tokens.StoreLoadRoundTrip | custom_components/sifely_cloud/token_manager.py:131-139 | loading what was stored gives back exactly the stored tokens, whatever else the options hold |
| Tokens.InitializeRun | custom_components/sifely_cloud/token_manager.py:30-40 | start-up fails with `BadStoredExpiry`, consuming no reply, exactly when the stored expiry does not parse |
| Tokens.InitializeOrder | custom_components/sifely_cloud/token_manager.py:34-40 | a valid cached token goes straight to a refresh, so a first refresh that succeeds involves no login; an invalid one starts with a login, whose failure ends start-up |
| Tokens.RefreshDelay | custom_components/sifely_cloud/token_manager.py:120-122 | the delay is at least 30 seconds, and equals expiry − buffer·60 − now whenever that is at least 30 |
| Tokens.CancelAt | custom_components/sifely_cloud/token_manager.py:117-118 | calling the held handle leaves the timer it names not pending, and every other timer as it was |
| Tokens.AtMostOnePending | custom_components/sifely_cloud/token_manager.py:116-125 | under the manager's invariant, two pending timers are the same timer |
| Tokens.TokenManager.constructor | custom_components/sifely_cloud/token_manager.py:23-28 | all tokens start as None and no timer is held |
| Tokens.TokenManager.LoadStoredTokens | custom_components/sifely_cloud/token_manager.py:42-50 | the tokens become what `LoadStored` reads from the options, and failure is reported exactly when it does |
| Tokens.TokenManager.Login | custom_components/sifely_cloud/token_manager.py:57-80 | the tokens become `LoginAttempt`'s result on success and are untouched when login raises |
| Tokens.TokenManager.SetTokenExpiry | custom_components/sifely_cloud/token_manager.py:112-114 | the expiry becomes `now + expires_in` |
| Tokens.TokenManager.StoreToken | custom_components/sifely_cloud/token_manager.py:131-139 | the options become `StoredOptions` of the old options and the current tokens |
| Tokens.TokenManager.ScheduleTokenRefresh | custom_components/sifely_cloud/token_manager.py:116-125 | see the note on `Tokens.TokenManager.ScheduleTokenRefresh` after this table |
| Tokens.TokenManager.RefreshOnce | custom_components/sifely_cloud/token_manager.py:86-104 | one refresh request: the tokens become `RefreshAttempt`'s; on success the options are stored and the timer re-armed, and on failure options and timers are untouched |
| Tokens.TokenManager.Refresh | custom_components/sifely_cloud/token_manager.py:82-110 | outcome, tokens and replies consumed are `RefreshChain`'s; options are stored and a timer re-armed exactly when the outcome is `Refreshed`; the invariant is kept |
| Tokens.TokenManager.HandleTokenRefresh | custom_components/sifely_cloud/token_manager.py:127-129 | the firing timer is marked fired and the refresh chain runs; a chain that does not end in `Refreshed` leaves no timer pending |
| Tokens.TokenManager.RefreshLoginToken | custom_components/sifely_cloud/token_manager.py:144-146 | outcome, tokens and replies consumed are `Reauthenticate`'s; options and timers change only on `Refreshed` |
| Tokens.TokenManager.Initialize | custom_components/sifely_cloud/token_manager.py:30-40 | outcome, tokens and replies consumed are `InitializeRun`'s over the stored options; options and timers change only on `Refreshed` |
| Tokens.TokenManager.Shutdown | custom_components/sifely_cloud/token_manager.py:148-151 | the held timer is cancelled and the handle dropped, so no timer is pending; a second shutdown changes nothing |
| Sensor.CreateSensors | custom_components/sifely_cloud/sensor.py:16-28 | exactly four sensors per lock with an id, each made from such a lock of the list |
| Sensor.CreateSensorsOrder | custom_components/sifely_cloud/sensor.py:19-25 | the k-th lock with an id owns positions 4k … 4k+3: battery, history, error, diagnostic |
| Json.ParseIntRoundTrip | custom_components/sifely_cloud/sensor.py:52-55 | `int()` of the decimal text of any integer, negative ones included, gives that integer back |
| Json.NatToStringInjective | custom_components/sifely_cloud/device.py:26 | distinct non-negative numbers have distinct `str()` texts |
| Json.Lower | custom_components/sifely_cloud/device.py:21 | `lower()` keeps the length and lowers exactly the ASCII capitals, character by character |
| Json.LowerIdempotent | custom_components/sifely_cloud/device.py:21 | lowering twice is lowering once |
| Json.LowerKeepsColon | custom_components/sifely_cloud/device.py:20-23 | lowering neither adds nor removes a ':' |
| Sensor.BatteryValue | custom_components/sifely_cloud/sensor.py:49-58 | a value only when the lock's record has `electricQuantity`, and then `int()` of it, or None where `int()` raises |
| Sensor.BatteryAvailable | custom_components/sifely_cloud/sensor.py:60-66 | available iff the id is set, the lock has a detail record and that record carries `electricQuantity` |
| Sensor.BatteryValueNeedsAvailable | custom_components/sifely_cloud/sensor.py:49-66 | for a sensor with an id, a level is shown only when the sensor is available |
| Sensor.BatteryReadsText | custom_components/sifely_cloud/sensor.py:49-66 | a battery level sent as decimal text reads back as that number, and the sensor is then available |
| Sensor.HistoryLines | custom_components/sifely_cloud/sensor.py:103-119 | one line per shown entry, in order |
| Sensor.RenderHistory | custom_components/sifely_cloud/sensor.py:103-120 | the loop renders every shown entry in order and stores line i under `entry_<i+1>`, giving exactly the numbered attributes |
| Sensor.EntryKeyInjective | custom_components/sifely_cloud/sensor.py:120 | distinct line numbers give distinct `entry_<i>` keys |
| Sensor.NumberedAttrsAt | custom_components/sifely_cloud/sensor.py:103-120 | line i is held under `entry_<i+1>` |
| Sensor.NumberedAttrsKeys | custom_components/sifely_cloud/sensor.py:103-120 | the keys are exactly `entry_1` … `entry_<n>` |
| Sensor.NumberedAttrsSize | custom_components/sifely_cloud/sensor.py:103-120 | the attribute map has one key per line, so no line is lost |
| Sensor.TimestampAttrsKeys | custom_components/sifely_cloud/sensor.py:141-150 | the attribute keys are exactly the entries' `lockDate` values |
| Sensor.TimestampAttrsLastWins | custom_components/sifely_cloud/sensor.py:141-150 | for a timestamp shared by several entries, the last entry's text is kept |
| Sensor.HistorySensor.constructor | custom_components/sifely_cloud/sensor.py:71-91 | a history sensor starts with its lock's id, no value, no attributes and no entries |
| Sensor.HistorySensor.AsyncUpdate | custom_components/sifely_cloud/sensor.py:93-123 | at most `limit` entries are shown; the value is the first line or "No recent activity", and the attributes are the numbered lines (empty for no history) |
| Sensor.HistorySensor.ExternalUpdate | custom_components/sifely_cloud/sensor.py:125-130 | a batch for another lock leaves the sensor unchanged; a batch for its own lock is stored and shown |
| Sensor.HistorySensor.UpdateFromEntries | custom_components/sifely_cloud/sensor.py:132-155 | no entries show "No recent activity" and `{}`; otherwise the value is the first entry's text and the attributes are keyed by timestamp |
| Sensor.CloudErrorSensor.constructor | custom_components/sifely_cloud/sensor.py:160-172 | an error sensor starts at "OK" with no attributes |
| Sensor.CloudErrorSensor.SetError | custom_components/sifely_cloud/sensor.py:180-186 | shows "Error" with exactly `{"last_error": message}` |
| Sensor.CloudErrorSensor.ClearError | custom_components/sifely_cloud/sensor.py:188-194 | shows "OK" with no attributes |
| Sensor.DiagnosticValue | custom_components/sifely_cloud/sensor.py:213-217 | "OK" iff the lock's detail record is present and non-empty, else "Unavailable" |
| Sensor.DiagnosticAttributes | custom_components/sifely_cloud/sensor.py:219-234 | the attributes are empty iff the lock has no non-empty detail record |
| Sensor.DiagnosticAttributeAt | custom_components/sifely_cloud/sensor.py:219-234 | with details, each of the seven named attributes is present and holds its detail field, or the field's stated default when absent |
| Sensor.DiagnosticAttributesOnly | custom_components/sifely_cloud/sensor.py:219-234 | no attribute other than the seven named ones appears |
| Sensor.DiagnosticOkIffAttributes | custom_components/sifely_cloud/sensor.py:213-234 | the diagnostic sensor reads "OK" exactly when it has attributes |
| Lock.IsLocked | custom_components/sifely_cloud/lock.py:44-52 | locked iff the stored state equals 0; unlocked iff it equals 1; unknown for any other or absent state, and always unknown without an id |
| Lock.Available | custom_components/sifely_cloud/lock.py:76-78 | available iff the id is set and the coordinator holds an open state for it |
| Lock.KnownStateIsAvailable | custom_components/sifely_cloud/lock.py:76-78 | a lock that reports locked or unlocked is available |
| Lock.FirstMatch | custom_components/sifely_cloud/lock.py:89-92 | the index found is the first record whose `lockId` equals the entity's; none means no record matches |
| Lock.SmartLock.constructor | custom_components/sifely_cloud/lock.py:30-35 | the entity holds its lock record and that record's id |
| Lock.SmartLock.HandleCoordinatorUpdate | custom_components/sifely_cloud/lock.py:87-93 | the record becomes the first fresh record with a matching id, and is unchanged when none matches |
| Lock.SmartLock.Operate | custom_components/sifely_cloud/lock.py:54-74 | see the note on `Lock.SmartLock.Operate` after this table |
| Lock.SmartLock.AsyncLock | custom_components/sifely_cloud/lock.py:54-63 | `Operate` with `lock = True`: every request sent is a lock request for this lock |
| Lock.SmartLock.AsyncUnlock | custom_components/sifely_cloud/lock.py:65-74 | `Operate` with `lock = False`: every request sent is an unlock request for this lock |
| Lock.CreateLockEntities | custom_components/sifely_cloud/lock.py:15-24 | one entity per lock with an id, in list order, each holding that lock's record and a truthy id |
| Device.RegisterLockDevice | custom_components/sifely_cloud/device.py:8-31 | see the note on `Device.RegisterLockDevice` after this table |
| Device.ConnectionsNormalised | custom_components/sifely_cloud/device.py:20-23 | every registered connection is a `mac` whose address is already lower-case |
| Device.DistinctIdsDistinctDevices | custom_components/sifely_cloud/device.py:26 | locks with different numeric ids get different device identifiers |
| BinarySensor.CreateBinarySensors | custom_components/sifely_cloud/binary_sensor.py:14-22 | exactly two binary sensors per lock with an id, each made from such a lock |
| BinarySensor.CreateBinarySensorsOrder | custom_components/sifely_cloud/binary_sensor.py:17-21 | the k-th lock with an id owns positions 2k (privacy) and 2k+1 (tamper) |
| BinarySensor.IsOn | custom_components/sifely_cloud/binary_sensor.py:58-60 | on iff the watched field (`privacyLock`, or `tamperAlert` at lines 76-78) equals 1; always off without details |
| BinarySensor.FlagSensor.constructor | custom_components/sifely_cloud/binary_sensor.py:27-30 | a binary sensor starts with its lock's id and no reading |
| BinarySensor.FlagSensor.UpdateState | custom_components/sifely_cloud/binary_sensor.py:62-63 | the stored reading becomes the current `IsOn` |

Notes on the longer contracts:

- `Sifely.OpenStateStep`:
  - a parsed 200 resets the counter to 0 and clears the alert, whatever the payload is;
  - the 200 reply stores only what `OpenStateValue` gives, and only for this lock; an id that is a list or an object cannot be a dictionary key, so the store raises, the poll catches it and nothing is stored;
  - a 401 adds exactly 1 to the counter;
  - re-login is requested iff a 401 brings the counter to the threshold;
  - the alert is raised on every 401 at or past its threshold, unless the re-login this 401 triggered raised;
  - every other outcome changes nothing.
- `Tokens.RefreshAttempt`:
  - success iff status 200, `access_token` is present and `expires_in` (default 3600) is a number;
  - a 200 reply with `access_token` installs that token and keeps the old refresh token unless a new one came, even when `expires_in` then fails to parse (the original assigns both before reading `expires_in`);
  - on success the expiry becomes `now + expires_in`; on failure it is unchanged;
  - any other reply changes no token;
  - it never changes the login token.
- `Tokens.RefreshChain`:
  - each round consumes a refresh reply and, if the refresh failed, a login reply;
  - `Refreshed` follows an odd number of replies and leaves an expiry;
  - `LoginFailed` follows an even number;
  - `Exhausted` uses up all the fuel;
  - the login token changes only through a login.
- `Tokens.LoadStored`:
  - the access, refresh and login tokens are all read from the options first;
  - a set expiry that parses replaces the current one;
  - a set expiry that does not parse fails, with the three tokens already replaced and the expiry left as it was;
  - an absent or empty expiry keeps the current one.
- `Tokens.TokenManager.ScheduleTokenRefresh`:
  - the held timer is cancelled before a new one is armed with `RefreshDelay`;
  - the new handle is held;
  - no older timer remains pending.
- `Lock.SmartLock.Operate`:
  - without an id, no request is sent and nothing changes;
  - otherwise it sends at most `lockRetries` copies of the command;
  - then it runs one full open-state cycle, whatever the command's result.
- `Device.RegisterLockDevice`:
  - it raises iff the MAC is set but not text;
  - the identifier is `(sifely_cloud, str(lockId))`, even for a missing id;
  - name and model default to "Sifely Lock" and "Sifely", and the manufacturer is always "Sifely";
  - the connection set is `{("mac", lower(mac))}` iff the MAC is set and contains ':', and is empty otherwise.

## Left out

- Sessions, URLs, headers and `json.loads` are not modelled. Each request's outcome is an input value, and request parameters are not modelled.
- Home Assistant scheduling is not modelled:
  - `async_track_time_interval`, `async_call_later` and `async_create_task`;
  - `setup_sifely_coordinator` and the `async_setup_entry` functions;
  - `hass.data` registration;
  - state writes.

  A timer is a record in `TokenManager.timers`, and its firing is the call `HandleTokenRefresh`. Overlapping poll cycles and asyncio interleaving are not modelled.
- Time is integer seconds, and a single `now` serves a whole call. The original reads the clock separately in `_set_token_expiry` and `_schedule_token_refresh`. `datetime` overflow in `timedelta` is not modelled.
- ISO-8601 formatting and parsing of the stored expiry are stood in for by decimal text of the seconds (`Tokens.ExpiryText`, `Tokens.ParseExpiry`). `ParseExpiry` therefore accepts what Python's `int()` accepts, not ISO-8601 text.
- The refresh-failure fallback recurses with no bound in the original. `Tokens.RefreshChain` carries `fuel`, and a refresh that fails with no fuel left ends as `Exhausted`. `Tokens.RefreshChainMoreFuel` shows that fuel changes no other outcome.
- The re-login triggered by the 401 threshold is not run inside the coordinator. Whether it raises is an input of each reply (`StateReply.reauthRaises`); `Tokens.TokenManager.RefreshLoginToken` models the re-login itself. The coordinator's copy of the access token is a snapshot taken at construction and is not modelled.
- The coordinator constructor's `UpdateFailed` when the token manager holds no access token is not modelled.
- Floating-point JSON numbers are not modelled (for example `code == 200.0`, or a float `electricQuantity` or `expires_in`).
- `str()` of a JSON array or object is not modelled; it is rendered as a fixed placeholder.
- Python `==` is modelled structurally below the top level. Dictionary keys do not unify `True` with `1`.
- `Sensor.TimestampAttrs`: a `lockDate` or `recordType` that is a list or an object makes `_update_from_entries` raise `TypeError` in the original, which is not caught there; the model stores the text under that key instead.
- `Lock.IsLocked`: an id that is a list or an object makes the `in` test raise `TypeError` in the original; the model reports the state as unknown.
- `Lock.Available`, `Sensor.BatteryAvailable` and `Sensor.BatteryValue`: the same lookup with a list or object id raises in the original. The coordinator never stores under such an id, so the model reports no level and not available.
- `Sensor.DiagnosticValue`, `Sensor.DiagnosticAttributes` and `BinarySensor.IsOn`: looking up a list or object id in the detail map raises `TypeError` in the original. The coordinator never stores under such an id, so the model reports "Unavailable", no attributes and off instead.
- `Sensor.HistoryLines`, `Sensor.RenderHistory` and `Sensor.HistorySensor.AsyncUpdate`: a `recordType` that is a list or an object makes the record-type lookup raise `TypeError` in the original, and `async_update` does not catch it. The model renders the value's text instead of raising.
- `lower()`, `strip()` and digit recognition cover ASCII only.
- A lock-list element that is not a JSON object is treated as a lock without an id. The original raises at `lock.get` there and aborts the poll.
- A `list` field that is not a JSON array is treated as absent:
  - `Payloads.LockListOf`: the original stores some such values and returns them;
  - `Payloads.HistoryOf`: the original returns such a value as the history.
- A history entry that is not a JSON object is rendered with the field defaults; the original raises at `entry.get`.
- Creating an entity for a lock whose `lockMac` is set but is not text raises in device registration. The entity lists (`Sensor.CreateSensors`, `Lock.CreateLockEntities`, `BinarySensor.CreateBinarySensors`) do not model that raise; `Device.RegisterLockDevice` does.
- History timestamp formatting, which uses float division and local time, is a function parameter (`formatTime`).
- `fetch_and_update_lock_history` is not part of this model. `Sifely.Coordinator.UpdateHistorySensor` takes its result as input.
- Battery and diagnostic sensors hold no state of their own; they are modelled as functions of the detail map. Entity names, unique ids, icons, translation keys and `DeviceInfo` fields other than those listed are not modelled.
- `config_flow.py` (a configuration wizard with MD5 hashing) and `diagnostics.py` (which delegates to Home Assistant's redaction helper) are not part of this model.
- Logging is not modelled.
