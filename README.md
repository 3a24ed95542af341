# homebridge-http-switch: the switch behaviour engine in Dafny

This project models the core of the `HTTP-SWITCH` accessory (`index.js`).
The accessory exposes an HTTP-controlled device to a HomeKit host as one
`On` characteristic. It behaves in one of five switch types:

- stateful
- stateless
- stateless-reverse
- toggle
- toggle-reverse

The model covers four parts.

- **The constructor and `parseUrls`** (`normaliser.dfy`, and the
  `HttpSwitch` constructor in `accessory.dfy`). They decide which URLs each
  type needs and wrap a stateful URL into a one-element list. They default
  the timeout to 1000. They apply the global `httpMethod` and the shared
  `auth` to the URL objects. They seed the reverse types with `true`. They
  enable the pull timer, notifications and MQTT only where the type allows.
- **The `getStatus`/`setStatus` decision tables** (`behaviour.dfy`), run by
  the `HttpSwitch` methods.
- **The `_makeSetRequest` callback.** It splits a batch of per-URL results
  into `errors` and `successes` (`http.dfy`). It fails when any request
  failed, and then schedules the momentary reset.
- **The out-of-band writes**: `handleNotification`, and the reset a
  momentary switch schedules.

How the model is built:

- The configuration is a JavaScript object: a map from property names to
  JSON-like values (`js_value.dfy`). So `if (config.x)` and `typeof` tests
  are modelled exactly.
- Some calls go into `homebridge-http-base`, which is not part of this
  model: `parseUrlProperty`, `parseMultipleUrlProperty`,
  `parseMQTTOptions` and `new RegExp`. They are fields of a `Library`
  record. A parser returns `None` where it would throw.
- The transport's answers are parameters of the methods that send requests.
  So is the clock (`now`).
- A `setTimeout` reset is a `PendingReset` record in `pendingResets`. It is
  fired by `FireReset`.
- The pull timer is a counter of its restarts.

Readings of library code that is not part of this model:

- `utils.enumValueOf`: an absent value gives the default, a string naming
  a type gives that type, and anything else is invalid.
- `Cache.shouldQuery`:
  - a zero window always asks;
  - a cache that was never marked asks;
  - a negative ("infinite") window never asks again once marked;
  - otherwise it asks once more than `window` ms have passed.
- `isHttpSuccessCode` is 2xx and `isHttpRedirectCode` is 3xx.
- The host stores a value written to `On` only when the `set` handler
  reports success.
- The host keeps a value the `get` handler answers as the characteristic's
  value. So a later cache hit answers the last value read.
- `On` starts as `false`.

Some descriptions of this accessory mention an `ignoreNextSet` flag that
swallows the `set` echo of a pushed update. `index.js` has no such flag:
`handleNotification` sets no flag; it restarts the pull timer and updates
the characteristic value. The model follows the code.

## Model

| member | source | states |
|---|---|---|
| SwitchTypes.FromName | index.js:25-31 | a recognised string is exactly the configuration name of the type it yields |
| SwitchTypes.NameRoundTrip | index.js:25-31 | each type is recognised by its own name and by no other string |
| SwitchTypes.EnumValueOf | index.js:38-42 | an absent `switchType` gives stateful; a value is valid iff it is a string naming a type, and the type yielded is the one named |
| SwitchTypes.IdleValue | index.js:379-384 | exactly the momentary types (stateless, stateless-reverse) have an idle value |
| StatusCache.NewCache | index.js:62 | a new cache has never been marked and asks at once; its window is the configured number, else the default |
| StatusCache.Cache.Queried | index.js:374 | marking keeps the window; right after it, a get asks again iff the window is 0 |
| StatusCache.QueryAgainIff | index.js:342 | after a successful query at t, a get at a later time asks iff the window is 0 or positive and exceeded; an infinite window never asks again |
| StatusCache.TwoGetsWithinWindow | index.js:341-376 | with window W > 0, a first get asks; after its success a second get asks again iff more than W ms have passed |
| Http.Partition | index.js:437-465 | the loop builds exactly the `errors` and `successes` lists defined by `ErrorsOf`/`SuccessesOf` |
| Http.PartitionCounts | index.js:441-465 | every result lands in exactly one of the two lists |
| Http.ErrorsSound | index.js:442-454 | every `errors` entry names a rejected result by its index and records its transport error or its code and body; indices increase |
| Http.ErrorsComplete | index.js:442-454 | every rejected result (transport error, or a code neither 2xx nor 3xx) has an `errors` entry |
| Http.SuccessesSound | index.js:455-464 | every `successes` entry names an accepted result (3xx included) by its index and carries its body; indices increase |
| Http.SuccessesComplete | index.js:455-464 | every accepted result has a `successes` entry |
| Http.NoErrorsIffAllAccepted | index.js:467-495 | `errors` is empty iff no result of the batch was rejected |
| Behaviour.GetDecision | index.js:340-393 | a request is issued iff the type is stateful and the cache says to query; momentary types answer their idle value; stateful on a cache hit and toggle types answer the current value |
| Behaviour.SetDecision | index.js:400-428 | a write is acknowledged without a request iff it is the type's idle value; any other write goes to `on` iff the value is true, and only to a list the type requires |
| Behaviour.StatusReply | index.js:353-377 | a status answer is a value iff the response is 2xx or 3xx, and that value is whether the pattern matches the body; transport errors and other codes are reported |
| Behaviour.ResetsAfterBatch | index.js:501-518 | a batch schedules a reset iff the type is momentary, and the reset writes the idle value after `timeout` |
| Behaviour.AggregateSetResults | index.js:437-495 | the set callback fails iff some result of the batch was rejected, so partial success is failure |
| Behaviour.ResetWriteIsAcknowledged | index.js:404-419 | the reset write a momentary switch schedules is acknowledged by `setStatus` without a request |
| Behaviour.DefaultPatternScenario | index.js:353-377 | with the default `/1/` pattern, 200 with body "1" reads on, 200 with "0" reads off, 500 is an error |
| Normaliser.ParseCommandUrls | index.js:236-238 | a stateful type wraps the single parsed URL into a one-element list; the other types keep the parsed list; a parse failure is a failure |
| Normaliser.ConfiguredCredentials | index.js:96-106 | credentials exist iff `auth` is given with a truthy username and password; `sendImmediately` is carried iff it is a boolean |
| Normaliser.ParseUrls | index.js:231-291 | succeeds iff every URL the type requires is present and parses; on success it holds exactly the required URLs, each the parse of its property |
| Normaliser.OverrideMethod | index.js:82-87 | every URL object of the list gets the given method and keeps its address and credentials |
| Normaliser.ApplyCredentials | index.js:100-117 | every URL object gets the username and password, `sendImmediately` only when configured as a boolean; address and method are untouched |
| Normaliser.OverrideMethods | index.js:81-94 | the method override reaches every `on` and `off` object, element by element |
| Normaliser.ApplyAuth | index.js:96-126 | the credentials reach every `on`, `off` and status object, element by element |
| Normaliser.NormaliseUrls | index.js:81-126 | after normalisation the `on`/`off` lists are their parsed lists with override and credentials applied, and the status URL has credentials only |
| Normaliser.OverrideScope | index.js:82-94 | the status URL keeps its own method while `on`/`off` take the override; credentials reach all alike |
| Normaliser.UnusedUrlIgnored | index.js:249-250 | a URL property the type does not use cannot change whether `parseUrls` succeeds |
| Accessory.ConfiguredTimeout | index.js:44-47 | the timeout is the configured value when it is a number, and 1000 otherwise |
| Accessory.ConfiguredSerial | index.js:49-51 | a serial number is kept iff the configured one is a string, and it is that string |
| Accessory.ResetTimer | index.js:330-331 | an existing pull timer is restarted once and keeps its interval; a missing one stays missing |
| Accessory.HttpSwitch.constructor | index.js:33-227 | the service exists iff the type is valid and the required URLs parse; timeout defaults to 1000; normalised URL lists; reverse types start on; pull timer only for stateful, notifications and MQTT only for push types |
| Accessory.HttpSwitch.GetServices | index.js:298-311 | an aborted switch reports no services; otherwise the information service (serial number or "SW01") and the switch |
| Accessory.HttpSwitch.HandleNotification | index.js:314-334 | a characteristic other than "On" changes nothing; "On" restarts the pull timer and takes the pushed value |
| Accessory.HttpSwitch.GetStatus | index.js:336-394 | the pull timer restarts; the answer follows `GetDecision`; a query sends exactly the status URL and marks the cache only on an accepted response |
| Accessory.HttpSwitch.SetStatus | index.js:396-429 | the pull timer restarts; an acknowledged write changes nothing else; a sent write uses the list `SetDecision` picks, fails iff some result failed, and schedules the reset |
| Accessory.HttpSwitch.MakeSetRequest | index.js:431-499 | sends `on` or `off`, fails iff some result failed, and always schedules the momentary reset |
| Accessory.HttpSwitch.ResetSwitchWithTimeoutIfStateless | index.js:501-518 | appends exactly the resets `ResetsAfterBatch` prescribes |
| Accessory.HttpSwitch.HostSet | index.js:128-131 | a host write runs the `set` handler, and the characteristic takes the value iff the handler succeeds |
| Accessory.HttpSwitch.FireReset | index.js:506-515 | a fired reset sends no request and returns the characteristic to the idle value |
| Accessory.HttpSwitch.HostGet | index.js:129-130 | a host read runs the `get` handler: it queries the status URL iff the switch is stateful and the cache says so, marks the cache only on an accepted answer, and the characteristic takes an answered value |
| Accessory.HttpSwitch.HostGetTwice | index.js:341-376 | with a positive window, when a first read queried and got a value, a second read within the window sends no request and answers the same value |
| Accessory.HttpSwitch.PullTick | index.js:142-151 | a pull tick runs `getStatus`: it queries the status URL iff the cache says so, marks the cache only on an accepted answer, writes an answered value into the characteristic, and an error leaves it unchanged |

## Left out

- The HTTP transport (`httpRequest`, `multipleHttpRequests`) does network I/O. Its results are parameters.
- `setMultipleUrlExecutionStrategy` (index.js:67-73) changes how the transport runs a batch (series or parallel). It does not change the outcome the callback computes from the results, so it is left out.
- Logging and debug output are not modelled. This includes the single-versus-several error log branches (index.js:467-487) and the constructor's option dump (index.js:188-226).
- `identify` only logs and calls back. It is left out.
- The "Unrecognized switch type" branches (index.js:390-392, 425-427) are left out. The type is a closed datatype there, and a switch with an invalid type has no service, so nothing calls those handlers.
- `new RegExp` throwing on a malformed pattern is not modelled. `compileRegex` is total.
- Creating and connecting the MQTT client (index.js:176-181) is not modelled. `mqttOptions` records the parsed options where the client would be created.
- Notification registration with the host (`notificationPassword`, `api`) is left out. Only whether registration is requested is kept.
- The internals of `PullTimer` and its scheduling are left out. The timer is a restart counter, and `PullTick` is one tick.
- Real time is left out. The `setTimeout` delay is recorded in `PendingReset.delay`, and resets fire in scheduling order through `FireReset`.
- `GetStatus` marks the cache at the `now` of the get, while index.js:374 marks it when the response arrives. The time a request takes is not modelled.
- Concurrency between in-flight requests is not modelled. Each get or set completes before the next operation.
- URL objects are values. The model does not capture in-place mutation through aliases: two URL entries that are the same JavaScript object are updated separately.
- Configuration numbers are integers. Floats, NaN and infinities are not modelled.
- Accessory.HttpSwitch.HandleNotification: the pushed value is taken to be a boolean, as the host characteristic would coerce it.
- Accessory.HttpSwitch.constructor: the `homebridgeService` object is reduced to the `hasService` flag and the `onValue` field. The `get`/`set` bindings are the `GetStatus`/`SetStatus` methods, and the host's use of them is `HostGet`/`HostSet`.
