# DACP accessory session controller, in Dafny

A model of the session controller inside the Homebridge DACP accessory
(`src/DacpAccessory.js`): the object that learns a remote player's endpoint
from discovery, logs in with the configured pairing code, fetches the server
info, then long-polls `getUpdate`, forwards each status record to the now-playing
and player-controls services and ticks the speaker service; and that, on the client's
`error` event, logs out and reconnects after 120 seconds until five failures
have been counted.

Layout:

- `wrappers.dfy` — `Option`, standing for JavaScript's absent values.
- `endpoints.dfy` — the endpoint and the `host:port` string sent with the login.
- `updates.dfy` — the pure projection of an update response onto the now-playing and player-controls slices.
- `services.dfy` — the feature filter that decides which services the accessory exposes.
- `retry_policy.dfy` — the bounded-retry rule of the error handler, and that handler as written (see Findings).
- `session.dfy` — the controller as a state machine over explicit events: `Session.Next` is one event, `Session.Run` a sequence of them, with the lemmas about both.
- `accessory.dfy` — the class `DacpAccessory`, whose fields the handlers update in place, one method per event; each event handler is proved to move the object's state exactly as `Session.Next` does, and each helper it calls states the fields it changes.

Promises become completion events. Each promise chain the source keeps running
is one outstanding request in `inFlight`, listed in issue order; a completion
names its request by position, retires it, and whatever the chain does next is
appended. The source never de-duplicates chains: a second discovery event, or a
reconnect timer that fires while a poll chain is still alive, starts another
chain, and the model keeps that behaviour (`Session.RequestsOverRun` counts it
exactly). The client and the projectors are recorded as calls in `effects`, and
so are the timers the controller schedules. A login is recorded with the endpoint it
was made against; the `host` string actually sent is `Endpoints.LoginHost` of that
endpoint (`"undefined:undefined"` when no discovery event has arrived yet, as the
template string renders two undefined fields). All reconnect timers wait the same
120000 ms, so they fire in the order they were scheduled.

A failed `getUpdate` only logs (src/DacpAccessory.js:107-109): it neither logs
out, nor reconnects, nor counts. The counted, bounded retry applies only to the
client's `error` event. With four failures counted, one more error makes the
count five and gives up, because the test is `< 5` after the increment.

## Model

| member | source | states |
|---|---|---|
| Endpoints.LoginHost | src/DacpAccessory.js:156 | the `host` string is `"undefined:undefined"` before any discovery; otherwise it starts with the host, then a colon, then a numeral that reads back as the port and has no leading zero (port 0 is exactly `0`) |
| Endpoints.Decimal | src/DacpAccessory.js:156 | the port is rendered as a non-empty string of decimal digits, with a leading zero only for port 0, whose numeral is exactly `0` |
| Endpoints.ParseDecimalOfDecimal | src/DacpAccessory.js:156 | reading the rendered port back gives the port |
| Endpoints.LoginHostNamesEndpoint | src/DacpAccessory.js:156 | the login `host` string `${host}:${port}` names the stored endpoint unambiguously: splitting it at its last colon recovers host and port, even for hosts with colons |
| Updates.NowPlayingOf | src/DacpAccessory.js:112-120 | the now-playing slice carries `cann`, `canl`, `cana` as track, album and artist, `cast` as duration, `caps` as play status, and a position that with the remaining time `cant` adds up to `cast` |
| Updates.PlayerStateOf | src/DacpAccessory.js:125-128 | the player-controls slice carries the play status `caps` |
| Updates.SlicesOf | src/DacpAccessory.js:96-131 | a response yields slices exactly when it has a `cmst` record; then track, album and artist are `cann`, `canl`, `cana`, the duration is `cast`, the remaining time `cant`, and both slices carry the same play status `caps` |
| Services.SpeakerService | src/DacpAccessory.js:58-65 | there is no speaker service exactly when `volume-control` is the boolean false |
| Services.Present | src/DacpAccessory.js:45 | the filter keeps exactly the values of the present entries, never lengthens the list, and drops nothing when every entry is present |
| Services.PresentAppend | src/DacpAccessory.js:45 | the filter works part by part: filtering a concatenation concatenates the filtered parts, so order and repetitions are kept |
| Services.PresentEntry | src/DacpAccessory.js:45 | an absent entry yields nothing and a present entry yields its value |
| Services.EffectiveFeatures | src/DacpAccessory.js:24 | the configured features, or the empty object when the configuration has none |
| Services.CreateServices | src/DacpAccessory.js:39-46 | the list is accessory information, speaker, player controls, now playing, with the speaker dropped exactly when volume control is switched off |
| Services.SpeakerListedUnlessVolumeOff | src/DacpAccessory.js:39-65 | accessory information comes first; 3 services when volume control is off, 4 otherwise; a missing key keeps the speaker |
| RetryPolicy.OnFailure | src/DacpAccessory.js:138-150 | a failure adds one to the counter and reconnects after 120000 ms exactly when the new count is below 5; otherwise it gives up |
| RetryPolicy.ReconnectsClosedForm | src/DacpAccessory.js:138-150 | n successive failures from a count c schedule min(n, 4 - c) reconnects, and none once c is 4 or more |
| RetryPolicy.FourReconnectsThenGiveUp | src/DacpAccessory.js:141-147 | from a fresh count the first, second, third and fourth failures each reconnect after 120000 ms and the fifth gives up at count 5; five failures schedule exactly four reconnects, and no number of failures schedules more |
| RetryPolicy.OnDacpFailureReading | src/DacpAccessory.js:133-150 | the handler line by line: the name line 136 reads is looked up among the handler's bindings (`e`, `this`, the module names of lines 3-12, Node's `require` and `module`, and the globals `JSON` and `setTimeout`) and a ReferenceError ends the handler there with the counter untouched; otherwise the counter is incremented as a JavaScript value, the client logged out, and a reconnect scheduled exactly when the count is a number below 5 |
| RetryPolicy.UninitialisedCounterGivesUpAtOnce | src/DacpAccessory.js:138-141 | with line 136 reading `e` but the counter left undefined, the first failure turns it into NaN, logs out and gives up, and NaN stays NaN |
| RetryPolicy.AsWrittenHandlerNeverRecovers | src/DacpAccessory.js:133-138 | as written, line 136 reads `error`, which is not bound, so whatever the counter holds the handler throws with the counter unchanged, no logout and no reconnect |
| RetryPolicy.CorrectedHandlerFollowsRetryRule | src/DacpAccessory.js:133-150 | with line 136 reading `e` and an integer counter, the handler leaves the counter `OnFailure` gives, logs out, and schedules the 120000 ms reconnect exactly when `OnFailure` reconnects |
| Session.Next | src/DacpAccessory.js:82-166 | one event of the controller; what each event does is stated by the `Session.Step*` lemmas (`StepStartsChain`, `StepConnectProgress`, `StepConnectFailure`, `StepUpdate`, `StepClientError`, `StepServiceDown`), and each event handler of `Accessory.DacpAccessory` is proved to move its state as `Next` does |
| Session.PollEffects | src/DacpAccessory.js:96-105 | the projector calls for one update response; its shape is stated by `Session.PollEffectsShape` |
| Session.PollEffectsShape | src/DacpAccessory.js:96-105 | a response forwards a now-playing slice (that of `cmst`) and then a player-controls slice with the same play status exactly when it has `cmst`, and ticks the speaker last exactly when a speaker service exists |
| Session.Relogin | src/DacpAccessory.js:160-165 | the catch of the connect chain: retire the failing request, log out, and log in again; its effect is stated by `Session.StepConnectFailure` |
| Session.StepFrame | src/DacpAccessory.js:82-87 | only a discovery event changes the endpoint, only a client error changes the counter, the pairing code and the speaker never change, and the effect log only grows |
| Session.StepRequests | src/DacpAccessory.js:93-166 | only a discovery event or a timer starts a chain, only a failed update ends one; every other event keeps the number of outstanding requests |
| Session.StepStartsChain | src/DacpAccessory.js:82-87 | a discovery event or a firing timer makes exactly one login, against the endpoint known after the event and with the configured pairing code, and appends one login request; a firing timer removes the oldest pending timer; the counter is unchanged |
| Session.StepServiceDown | src/DacpAccessory.js:89-91 | a loss of the service makes one logout and changes nothing else: endpoint, counter, outstanding requests and timers stay |
| Session.StepConnectProgress | src/DacpAccessory.js:155-159 | a successful login retires its request and makes exactly one `getServerInfo`, which becomes outstanding; a server info with `msrv` retires its request and makes exactly one `getUpdate`, which becomes outstanding; endpoint, counter and timers are unchanged |
| Session.StepConnectFailure | src/DacpAccessory.js:155-165 | a failed login, a failed server-info request or a server info without `msrv` makes exactly one logout and then at once one login against the same endpoint with the same pairing code; counter, endpoint and timers are unchanged |
| Session.StepUpdate | src/DacpAccessory.js:93-110 | a successful update forwards its projections and only then issues one `getUpdate`; a failed update ends the chain with no call, no timer and no change to the counter |
| Session.StepClientError | src/DacpAccessory.js:133-153 | a client error logs out once and schedules one 120000 ms timer exactly when the new count is below 5 |
| Session.StepTimers | src/DacpAccessory.js:141-145 | only a client error below the limit records a timer; no other event does |
| Session.StepPendingTimers | src/DacpAccessory.js:141-145 | a scheduled reconnect joins the pending timers and a firing timer leaves them; no other event changes their number |
| Session.ReconnectsOverRun | src/DacpAccessory.js:133-153 | over any run of events the counter grows by the number of client errors, and the timers scheduled are exactly the reconnects the retry rule grants that many failures |
| Session.GivesUpForGood | src/DacpAccessory.js:141-150 | once four failures are counted, no later run of events schedules a reconnect |
| Session.AtMostFourReconnects | src/DacpAccessory.js:138-147 | over the accessory's whole life at most four reconnect timers are scheduled |
| Session.RequestsOverRun | src/DacpAccessory.js:82-166 | over any run, outstanding requests = initial + discovery events and timer firings - failed updates |
| Session.SingleChainStaysSingle | src/DacpAccessory.js:93-106 | with one chain running and no new discovery event or timer, at most one request, so at most one `getUpdate`, is ever outstanding |
| Session.SecondDiscoveryPollsTwice | src/DacpAccessory.js:82-106 | while one poll chain is alive, a second discovery followed through login and server info leaves two `getUpdate` requests outstanding, after one more login, `getServerInfo` and `getUpdate` |
| Session.TwoDiscoveriesPollTwice | src/DacpAccessory.js:82-106 | from the initial state, two discoveries of the same endpoint, each followed through login and server info, leave two updates outstanding |
| Session.PollStep | src/DacpAccessory.js:93-106 | with one update outstanding, a response forwards its projections, issues one new `getUpdate`, and changes nothing else |
| Session.PollingIsSequential | src/DacpAccessory.js:93-106 | with one update outstanding, successive responses each forward their projections and then issue exactly one new `getUpdate`, in arrival order, and nothing else changes |
| Session.ConnectScenario | src/DacpAccessory.js:82-87 | discovery of 10.0.0.5:3689 then successful login and server info makes the calls login (against that endpoint, with the configured pairing code), `getServerInfo`, `getUpdate`, in that order, and leaves one update outstanding |
| Endpoints.LoginHostExample | src/DacpAccessory.js:156 | the host string of the login against 10.0.0.5:3689 is `"10.0.0.5:3689"` |
| Session.ErrorThenReconnect | src/DacpAccessory.js:139-144 | a client error below the limit and then its timer: exactly one logout between the error and the next login, which targets the same endpoint |
| Session.FifthErrorGivesUp | src/DacpAccessory.js:138-150 | with three failures counted, a fourth reconnects and a fifth before that timer fires logs out, gives up and schedules nothing |
| Accessory.DacpAccessory.constructor | src/DacpAccessory.js:14-33 | features default to empty, the service list is `CreateServices` of them, the speaker exists unless volume control is off, the counter starts at 0 with nothing in flight |
| Accessory.DacpAccessory.ConnectToDacpDevice | src/DacpAccessory.js:155-156 | one login against the endpoint known now, with the configured pairing code |
| Accessory.DacpAccessory.StartRetrievingUpdates | src/DacpAccessory.js:93-94 | one `getUpdate` is issued and becomes outstanding |
| Accessory.DacpAccessory.UpdateNowPlaying | src/DacpAccessory.js:112-123 | the now-playing projector receives the slice of `cmst`, whose remaining time is `cant` |
| Accessory.DacpAccessory.UpdatePlayerControlService | src/DacpAccessory.js:125-131 | the player-controls projector receives the play status `caps` |
| Accessory.DacpAccessory.ConnectionFailed | src/DacpAccessory.js:160-165 | the failing chain ends, the client is logged out, and a new login starts |
| Accessory.DacpAccessory.ServiceUp | src/DacpAccessory.js:82-87 | the endpoint is recorded and one login starts, as `Session.Next` prescribes |
| Accessory.DacpAccessory.ServiceDown | src/DacpAccessory.js:89-91 | one logout and no other change: timers and outstanding requests stay |
| Accessory.DacpAccessory.LoginSucceeded | src/DacpAccessory.js:156-157 | the chain moves on to `getServerInfo` |
| Accessory.DacpAccessory.LoginFailed | src/DacpAccessory.js:160-165 | the connect-failure path of `Session.Next` |
| Accessory.DacpAccessory.ServerInfoReceived | src/DacpAccessory.js:157-159 | with `msrv` present the chain starts polling, without it the connect-failure path runs |
| Accessory.DacpAccessory.ServerInfoFailed | src/DacpAccessory.js:160-165 | the connect-failure path of `Session.Next` |
| Accessory.DacpAccessory.UpdateReceived | src/DacpAccessory.js:95-106 | the projections of the response, the speaker tick, then the next `getUpdate`, as `Session.Next` prescribes |
| Accessory.DacpAccessory.UpdateFailed | src/DacpAccessory.js:107-109 | the chain ends; no call, no timer, the counter unchanged |
| Accessory.DacpAccessory.OnDacpFailure | src/DacpAccessory.js:133-153 | the counter grows by one, the client is logged out, and a 120000 ms timer is added exactly when the new count is below 5 |
| Accessory.DacpAccessory.ReconnectTimerFired | src/DacpAccessory.js:144 | the oldest timer is removed and a login starts against the current endpoint |

## Left out

- Construction of the HomeKit `Service` and `Characteristic` objects and their metadata strings (lines 48-56): framework calls with no logic; the services are modelled as the tags in `Services.ServiceKind`.
- `DacpClient`, `NowPlayingService`, `PlayerControlsService` and `SpeakerService` are not part of this model: their calls are recorded in the effect log and their completions are input events.
- Promises, `setTimeout` and time: replaced by completion events and a list of pending timers; nothing runs concurrently.
- Log messages, the `readyStateChanged` handler (line 27, logging only), `identify` and `getServices` (returning a stored field).
- The `name`, `serviceName` and `version` configuration entries, used only in log text and metadata.
- Updates.Status: every field of the `cmst` record is taken to be present; a missing `cast` or `cant` would make the position NaN, which is not modelled.
- Session.ServerInfo: only whether `msrv` is present matters (a missing `msrv` throws at line 158); the device name is used only for logging.
- Session.SingleChainStaysSingle: holds only while no chain starts. The source never de-duplicates chains: a second discovery event or a reconnect timer firing while a poll chain is alive starts another chain, and two `getUpdate` requests can then be outstanding at once (`Session.SecondDiscoveryPollsTwice`, `Session.TwoDiscoveriesPollTwice`).
- Session.Next: a completion that names no outstanding request of its kind is excluded by `Session.Enabled`; the client never delivers one.
- Updates.UpdateResponse: a `getUpdate` that resolves to `null` or `undefined` is not modelled; line 96 would throw a TypeError into the catch at line 107, ending the chain as `Session.UpdateFail` does.
- Exceptions thrown by the projectors inside the update chain (which would end the chain like a failed update) are not modelled.
- The counter is modelled as an integer starting at 0, and the handler as it evidently should run; the source as written differs (see Findings).

## Findings

| source | as written | input that shows it | evidently intended | confidence | as-written member | corrected member |
|---|---|---|---|---|---|---|
| src/DacpAccessory.js:138 | `_dacpErrors` is never assigned in the constructor, so `this._dacpErrors++` turns `undefined` into NaN and `NaN < 5` is false | the first client `error` event, once line 136 reads `e` | the counter starts at 0, so four failures reconnect before the fifth gives up | high, not executed | RetryPolicy.UninitialisedCounterGivesUpAtOnce | RetryPolicy.FourReconnectsThenGiveUp |
| src/DacpAccessory.js:136 | the log line reads `error`, but the handler's parameter is `e`; reading an undeclared name throws a ReferenceError, so lines 138-150 never run | any client `error` event | log the error `e`, then count, log out and reconnect or give up | high, not executed | RetryPolicy.AsWrittenHandlerNeverRecovers | RetryPolicy.CorrectedHandlerFollowsRetryRule |
