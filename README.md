# Nest thermostat node server, modelled in Dafny

This project models the core of a Polyglot node server for Nest devices.
The server mirrors the vendor's cloud state into a home-automation host and
forwards the host's commands back to the vendor API. The model covers two
parts:

- **The device nodes** (`node_types.py`). These are the structure (home/away)
  node and the thermostat node in its Fahrenheit and Celsius variants. For
  each node the model covers:
  - its cached fields and their refresh from the vendor snapshot;
  - the values it publishes to the host (its *drivers*);
  - the command handlers, which either refuse a request or send exactly one
    minimal change payload.
- **The controller** (`nest2.py`). The model covers:
  - token resolution: the host's stored record, then the local cache file,
    then a PIN exchange;
  - the capped PIN poll;
  - discovery of structures and devices into the node map;
  - the decision skeleton of the request layer: guards, one followed 307
    redirect, and when the connection is dropped;
  - the server-sent-event consumer;
  - the watchdog over the consumer thread;
  - the profile-version check;
  - the start, short-poll and long-poll entry points.

Both source files work by updating object fields in place. The nodes and the
controller are therefore Dafny classes. Their methods name the fields they
write in `modifies this`f` frames; the node refreshes and constructors, which
rewrite every field, use `modifies this`. The state-changing operations are
specified against pure functions where the source's logic is more than a
field update: `Refreshed`, `NestMode`, `ResolveToken`, `Granted`,
`WithNew`/`Discovered`, `AfterDiscovery`, `Run`, `Watchdog`. The setpoint
and away commands state their new drivers and change requests directly. The
lemmas about those functions carry the cross-call properties:

- discovery never replaces a node and is idempotent;
- events after a terminating one are ignored;
- the token is dropped only on revocation;
- and similar facts, each stated in the table below.

Modules, one per file:

| file | module | contents |
|---|---|---|
| `common.dfy` | `Common` | shared datatypes |
| `thermostat.dfy` | `Thermostats` | the thermostat node |
| `structure.dfy` | `Structures` | the structure node |
| `snapshot.dfy` | `Snapshots` | the vendor snapshot |
| `discovery.dfy` | `Discovery` | discovery as a function on the node map |
| `session.dfy` | `Session` | token resolution and session data |
| `requests.dfy` | `Requests` | request outcomes and the 307 redirect |
| `stream.dfy` | `Streaming` | the event consumer and the watchdog |
| `controller.dfy` | `Nest` | the controller class |

Conventions:

- **Temperatures** are integers in tenths of a degree.
  - A Fahrenheit reading is truncated toward zero to a whole degree, as
    Python's `int()` does on a number. A Celsius reading is kept exactly.
  - The BRT/DIM step is 1 °F (10) or 0.5 °C (5).
  - The BRT/DIM limits are 50..90 °F and 9..32 °C.
- **Timestamps** are integer seconds on one clock.
- **The environment** is passed in as values:
  - network answers are `Exchange`, `TokenReply` and `PinReply`;
  - thread liveness, the clock, the cache file, the OAuth init data, the
    host's `pin` parameter and the HMAC-derived state string are fields of
    `Env`;
  - the profile-version file is an `Option<string>`;
  - the stream is a list of `Event`s.
- **What the controller hands to the host** is recorded in sequence fields:
  - saved custom data: `saved`;
  - the requests it issued: `requestLog`;
  - the snapshots the consumer refreshed every node from on a put event:
    `refreshes` (the refresh a node runs when it is added is not logged);
  - each node's change requests: its `outbox`.
- **The address of a vendor id** is a digest computed in `converters.py`. It
  is a deterministic but uninterpreted function, passed to the controller as
  `addressOf`.

Facts about the code that the model follows:

- The cache file's keys are `access_token` and `expires`.
- A fresh token is saved to the host's record. It is not written to the cache
  file.
- The 60-attempt cap applies to the local deployment's PIN poll. A cloud
  deployment never polls.
- A stored token is rejected only when the clock reading is later than its
  expiry, so a clock reading exactly equal to the expiry is still accepted. A
  cached token needs a clock reading strictly before its expiry. (The source's
  clock has microseconds and its expiries whole seconds, so "exactly equal"
  happens only at the first instant of that second; the model's clock counts
  whole seconds.)
- In heat mode, SetHeat's no-op test and SetIncDec's step start from `heatSp`
  (the target-low reading), not from `sp`. SetHeat then sets both `heatSp` and
  `sp`; SetIncDec sets neither.

## Model

| member | source | states |
|---|---|---|
| Thermostats.Str2TempTruncates | node_types.py:318-321 | A Celsius reading is kept. A Fahrenheit reading becomes a whole degree, truncated toward zero for either sign. |
| Thermostats.CommandTemp | node_types.py:318-321 | A command value, given in tenths, converts exactly when the unit is Celsius or the value is a whole number of Fahrenheit degrees (`int()` on a fractional string raises). The converted value is the requested one. |
| Thermostats.ParseMode | node_types.py:104 | The parsed mode names the string it came from. It is `Unknown` exactly when the string is none of the five vendor modes. |
| Thermostats.ParseModeInjective | node_types.py:104-106 | Two mode strings give the same mode exactly when they are equal, so mode tests on the parsed value match the source's string tests. |
| Thermostats.ModeCode | node_types.py:126-145 | The CLIMD code is 3 exactly for heat-cool, 1 for heat, 2 for cool and 13 for eco; every other mode gives 0. |
| Thermostats.NestMode | node_types.py:7 | The mode command's table, corrected (see Findings). It is defined exactly on 0, 1, 2, 3 and 13. Each entry is a known mode whose published code is the requested code. |
| Thermostats.NestModeAsWritten | node_types.py:7 | The table as written. It is defined on the same codes and differs only at 13. |
| Thermostats.AwayDoesNotRoundTrip | node_types.py:7 | As written, code 13 asks for mode "away", which the refresh publishes as 0, not 13. |
| Thermostats.ModeCodeInverse | node_types.py:126-145 | Every published non-zero mode code asks, through the corrected table, for the mode that produced it. |
| Thermostats.HvacStateCode | node_types.py:161-169 | The activity code is 2 exactly when cooling and 1 exactly when heating. It is 3 exactly when neither but the fan timer is active. Otherwise it is 0. |
| Thermostats.Thermostat.constructor | node_types.py:76-98 | A new node of the given unit and id has the set URL `/devices/thermostats/<id>` and the cached fields of one refresh from its subtree. Its drivers are exactly the ten values that refresh publishes, as in Update. Nothing is sent. |
| Thermostats.Thermostat.Update | node_types.py:100-169 | It needs only the temperature keys the refresh reads: the eco pair in eco mode, the target low/high pair otherwise, and the other four. Each cached field comes from its reading. heatSp/coolSp come from the eco keys exactly in eco mode and from the target low/high keys otherwise. The drivers are updated as follows: CLISPH shows sp in heat mode, CLISPC shows sp in cool mode, and the other drivers show their fields. Nothing is sent. |
| Thermostats.Thermostat.ReadSubtree | node_types.py:100-118 | The cached fields equal the refresh of the subtree (`Refreshed`). |
| Thermostats.Thermostat.PublishDrivers | node_types.py:120-169 | The driver map receives exactly the ten refreshed values, with the heat/cool setpoint selection by mode. |
| Thermostats.Thermostat.CheckLock | node_types.py:308-316 | An unlocked thermostat never rejects. A locked one rejects any setpoint outside [lockMin, lockMax] and every setpoint in heat-cool mode, and nothing else. |
| Thermostats.Thermostat.SetHeat | node_types.py:175-197 | A malformed value raises. The request is sent exactly when the value differs from heatSp, passes the lock, and the mode is heat or heat-cool. Otherwise nothing changes. In heat mode, heatSp and sp become v and only `target_temperature<suffix>` is sent. In heat-cool mode, only heatSp changes and only `target_temperature_low<suffix>` is sent. |
| Thermostats.Thermostat.SetCool | node_types.py:199-221 | The same as SetHeat for the cool side: coolSp, cool or heat-cool mode, and `target_temperature<suffix>` / `target_temperature_high<suffix>`. |
| Thermostats.Thermostat.SetMode | node_types.py:223-232 | An unknown code raises. A request equal to the current mode is refused. Otherwise CLIMD becomes the code and only `{hvac_mode: name}` is sent. The name comes from the corrected table `NestMode` (see Findings and Left out). |
| Thermostats.Thermostat.SetFan | node_types.py:234-244 | A request equal to the fan mode is refused. Any other request raises and nothing is sent. |
| Thermostats.Thermostat.SetFanTimer | node_types.py:246-253 | A request equal to the timer is refused. Otherwise GV1 becomes the value and only `{fan_timer_duration: value}` is sent. |
| Thermostats.Thermostat.IncDecTarget | node_types.py:257-277 | There is a target exactly in heat, cool and heat-cool mode. In heat-cool mode the heat side is chosen exactly when strictly closer to the ambient temperature, so ties go to cool. The target's driver and key match its side and mode. |
| Thermostats.Thermostat.SetIncDec | node_types.py:255-306 | A command other than BRT/DIM is refused. BRT/DIM with no target raises. Otherwise the step up or down is sent exactly when it stays within the unit's limits and passes the lock, and is refused (never raises) otherwise. Only the target's driver and one key change, and no cached setpoint changes. |
| Structures.NestAway | node_types.py:8 | The away table is defined exactly on 1 and 2. Only 2 names "away". |
| Structures.Structure.constructor | node_types.py:11-21 | A new structure node with set URL `/structures/<id>` and one refresh applied. Nothing is sent. |
| Structures.Structure.CheckRushHour | node_types.py:54-63 | True exactly when enrolment is true, both peak times are present, and now lies strictly between them. |
| Structures.Structure.Update | node_types.py:27-40 | `away` holds exactly when the subtree says "away". ST becomes 2/1 and GV0 becomes the rush-hour indicator. |
| Structures.Structure.SetAway | node_types.py:42-52 | Away-when-away and home-when-home are refused. Any other code except 1 and 2 raises. Otherwise ST becomes the code and only `{away: name}` is sent; the cached flag is unchanged. |
| Discovery.KindOf | nest2.py:259-262 | A thermostat entry becomes the Fahrenheit class exactly when its scale is "F". Each collection gets its own class. |
| Discovery.Info | nest2.py:245-280 | The node for an entry carries its class, id and name. It has the update-definition flag exactly when the flag is set and the entry is not a structure. |
| Discovery.WithNewKeeps | nest2.py:245-249 | Walking a collection never replaces or removes an existing node. |
| Discovery.WithNewKeys | nest2.py:245-249 | After the walk, the addresses are exactly the old ones plus those of the entries. |
| Discovery.WithNewFirst | nest2.py:245-249 | Each new node is the node of the first entry with its address. |
| Discovery.WithNewIdle | nest2.py:245-249 | When all addresses are taken, the walk changes nothing. |
| Discovery.WithNewIdempotent | nest2.py:245-249 | Walking the same entries twice adds nothing the second time, whatever the flag. |
| Discovery.DiscoveredKeys | nest2.py:242-280 | A full discovery keeps every existing node. It ends with exactly the old addresses plus every address in the snapshot's four collections. |
| Discovery.DiscoveredIdempotent | nest2.py:242-280 | A second discovery over the same snapshot adds nothing. |
| Session.ResolveToken | nest2.py:404-446 | The stored token is used when it has no expiry, or when now <= expiry. Failing that, the cached token is used exactly when both cache keys are present and now < expiry. Otherwise a PIN is needed. |
| Session.DatabaseFirst | nest2.py:404-418 | A usable stored token is chosen whatever the cache file holds. |
| Session.StripNewlines | nest2.py:78 | The result has no line break. It keeps every other character as often as it occurs. Text without line breaks is unchanged. |
| Session.StripNewlinesAppend | nest2.py:78 | Stripping a concatenation is the concatenation of the stripped parts, so the kept characters stay in their order. |
| Session.StripNewlinesIdempotent | nest2.py:78 | Stripping twice equals stripping once. |
| Requests.Final | nest2.py:306-322 | The outcome used is the redirected attempt after a 307 and the first attempt otherwise. Success means 200 directly or 200 after exactly one 307. |
| Streaming.Step | nest2.py:189-218 | Every event sets the last-update time. Only put replaces the snapshot and refreshes the nodes once, and only auth_revoked drops the token. |
| Streaming.Consumed | nest2.py:189-218 | The loop reads events up to and including the first terminating one, or all of them. No earlier event terminates it. |
| Streaming.RunIgnoresTail | nest2.py:202-218 | Events after the terminating one have no effect. |
| Streaming.RunLastUpdate | nest2.py:191 | The last-update time is that of the last event read. |
| Streaming.RunToken | nest2.py:202-206 | The token is None exactly when the last event read is auth_revoked. Otherwise it is unchanged; error, cancel and unknown events terminate without touching it. |
| Streaming.RunRefreshes | nest2.py:194-199 | The nodes are refreshed once per put event read, with that put's snapshot, in order. |
| Streaming.RunData | nest2.py:192-201 | The snapshot is the last put's body, or unchanged when no put was read; open and keep-alive never change it. |
| Streaming.Watchdog | nest2.py:152-168 | Nothing happens without a token or during discovery. Otherwise: no thread → start; dead thread → restart; live thread silent for more than 1800 s → process restart; live thread silent for 1800 s or less → healthy. |
| Streaming.Supervised | nest2.py:153-172 | A start or restart launches exactly one consumer, and a process restart sets the restart request. |
| Streaming.WatchdogSettles | nest2.py:155-164 | After the watchdog starts a thread, it reports that thread healthy while it is alive and fresh. |
| Nest.Controller.constructor | nest2.py:36-55 | Initial state: no token, cookie, connection, data or nodes; 0 tries; all flags false; last update 0. |
| Nest.Controller.CheckProfile | nest2.py:73-92 | Needs both the version file and custom data, and reads the version with line breaks removed. The update flag is set exactly when it was set or the stored version is missing or different. While it is set, the record with the new version is saved. |
| Nest.Controller.Granted | nest2.py:399-502 | The token resolution grants is the stored one when the stored one is usable, and the cached one when the cache is. On the PIN path it grants only with credentials, a PIN, custom data and a reply holding that token. A granted token means resolution neither raises nor prompts. |
| Nest.Controller.GetToken | nest2.py:399-502 | The outcome is raise, or true exactly when `Granted` holds a token. The token becomes the granted one, and otherwise stays. The saved records are `SavedBy`: the cached token with the profile version, or the exchanged record. The prompt state is set exactly when resolution ends at the prompt (`Prompts`). |
| Nest.Controller.ExchangePin | nest2.py:449-514 | A cloud deployment without client credentials fails. Without any PIN, the prompt state (worker or HMAC state) is set. With a PIN, success comes exactly when the reply has a token and custom data exists. It raises when custom data is missing. On success the record is saved with the new token, `now + expires_in` (or the old expiry) and the profile version. |
| Nest.Controller.GetState | nest2.py:286-329 | Without a truthy token nothing happens. Otherwise one GET is made, plus one more after a 307. Success comes exactly when the final status is 200, and the body is stored. On a raise or a non-200 final status the connection is cleared. |
| Nest.Controller.SendChange | nest2.py:331-374 | Without a truthy token, or with an empty payload, nothing is sent. Otherwise one PUT is made, plus one after a 307, and success comes exactly when the final status is 200. Only a raised request clears the connection; a bad status keeps it. |
| Nest.Controller.AddMissing | nest2.py:245-280 | The loop leaves the node map equal to `WithNew` over the collection. |
| Nest.AfterDiscovery | nest2.py:224-329 | Without a truthy token nothing changes. Otherwise the state read's GETs are logged (one more after a 307). After a 200 read the connection is on the host that answered, the body is the last read, `discovery` ends cleared, and the snapshot is seeded only when it was None; after a failed read the connection is cleared and the last read, flag and snapshot are kept. Exactly when discovery succeeds (structures present) the nodes become `Discovered` and the update flag is cleared; otherwise both are kept. The consumer bookkeeping is never touched. |
| Nest.Controller.Discover | nest2.py:224-284 | Success comes exactly with a truthy token, a 200 state read, and structures in the body. The new connection, last read, request log, `discovery`, snapshot, nodes and update flag are exactly `AfterDiscovery` of the old ones; the consumer bookkeeping is untouched. |
| Nest.Controller.CheckStreaming | nest2.py:152-172 | The consumer bookkeeping follows `Watchdog`'s choice. The answer is false exactly for skip and process restart. |
| Nest.Controller.StreamingProc | nest2.py:174-219 | When the stream request went through, the written state equals `Run` over the events. Otherwise nothing changes. |
| Nest.Controller.ShortPoll | nest2.py:116-150 | With a token, without a cookie, or in the cloud, it does nothing. Otherwise the try counter rises by one while below 60 and the cap is kept. At 60 the cookie is cleared with nothing else done. A failed relay request returns false, and a reply without a PIN returns true; neither changes anything but the counter. An obtained PIN clears the cookie and resolves the token with it. The poll raises exactly when that resolution raises, and returns true otherwise. The token and the saved records are those of resolution. With a granted token, the discovery state is `AfterDiscovery` with that token (so nodes, update flag, snapshot and `discovery` are as discovery leaves them), and then the watchdog runs. Without one, nothing else changes. "Nothing else" covers the connection, the last read, the request log, the snapshot, the nodes, both flags and the consumer bookkeeping (`Mirrored`). |
| Nest.Controller.LongPoll | nest2.py:100-114 | A pending rediscovery stays pending exactly when that discovery fails, and then the watchdog is not run. Otherwise the watchdog runs. With a rediscovery pending, the discovery state (connection, last read, request log, `discovery`, snapshot, nodes, update flag) is `AfterDiscovery` of the old one; with none pending it is unchanged. |
| Nest.Controller.Start | nest2.py:57-71 | It raises exactly when token resolution (without a PIN) raises. It returns true exactly when resolution grants a token and discovery with that token succeeds. The token is the granted one. A rediscovery becomes pending exactly when a token was granted and discovery failed. With a granted token the discovery state is `AfterDiscovery` of the old one with the profile check's update flag; without one only that flag changes. On success the watchdog has run; otherwise the consumer bookkeeping is unchanged. The profile version is the stripped file text, and the prompt state is set exactly when resolution ends at the prompt. The saved records are the profile check's (`ProfileSaved`) followed by resolution's (`SavedBy`). |
| Nest.Controller.Connect | nest2.py:66-71 | The start after its profile check: the same outcome, token, rediscovery, prompt state and consumer bookkeeping as Start. With a granted token the discovery state is `AfterDiscovery` of the old one, and without one it is unchanged. The saved records are `SavedBy`. |
| Nest.Controller.DiscoverAndWatch | nest2.py:66-70 | Success comes exactly when discovery succeeds. The discovery state is `AfterDiscovery` of the old one, so a failed discovery can still log its state read and seed the snapshot. On success the watchdog runs; on failure a rediscovery becomes pending and the consumer bookkeeping is unchanged. |

## Left out

- Networking, JSON encoding and decoding, the PIN relay, and the OAuth POST
  and DELETE are not modelled. They become the outcome values `Exchange`,
  `TokenReply` and `PinReply`. A 307 answer without a location header is not
  modelled.
- Threads, files and host calls are abstracted:
  - The consumer thread is a liveness input and a start counter
    (`Supervisor`).
  - The cache file and `profile/version.txt` are inputs.
  - `server.json` is assumed present with both `api_client` and `api_key`:
    a local deployment always has credentials (`HasCredentials`). The
    source's failure when the file is missing or lacks a key is not modelled.
  - `saveCustomData`, `setDriver`, `addNode` and `restart` become the logs
    and maps described above.
- The controller's `stop`, `delete`, `oauth`, `update`, the nodes' `query`
  and `reportDrivers`, the notices and the logging are outside the modelled
  core. So is the connection-idle timestamp, which is written but read only
  by disabled code.
- Nest.Controller.constructor: `customData` is the record the host handed
  over. The host's copy is not refreshed by saves within one run, and keys
  other than the three modelled ones are not tracked.
- Session.ResolveToken: the cache file's other keys are not copied into the
  saved record.
- Nest.Controller.Discover: a snapshot without a `devices` key makes the
  source raise after adding the structures. The model has no such snapshot,
  because absent device collections are empty. An exception part-way through
  a discovery would leave `discovery` set; that case is not modelled.
- Nest.Controller.AddMissing: the controller's node map holds node
  descriptors (`NodeInfo`). The refresh that `addNode`'s start triggers, and
  the per-node refresh on each put event, are modelled by the node classes'
  own constructor and `Update`. The controller logs only the put-event
  refreshes, as `refreshes`; the refresh of a node added by discovery is not
  logged.
- Nest.Controller.GetState, Nest.Controller.SendChange: only a raise from
  sending the request is modelled (`ConnectionError`). Reading the reply
  (`getresponse`) and decoding its JSON body are outside any handler in the
  source, so a failure there propagates out of the call and on to the entry
  point; that raising path is not modelled.
- Thermostats.Thermostat.Update: it requires the six temperature keys the
  refresh reads for the current mode. The source raises KeyError when one is
  missing; that error path is not modelled.
- Thermostats.Thermostat.Update: `time_to_target` is taken as an integer. The
  stripping of `~`, `<` and `>` before `int()` is not modelled, and neither
  is `int()` of the humidity.
- Structures.Structure.Update: it is given its subtree and the current time
  directly. The lookup of its id in the controller's snapshot raising
  KeyError is not modelled.
- Structures.Structure.CheckRushHour: the vendor's timestamps are parsed into
  integers beforehand. The date parsing in `converters.py` is not part of
  this model.
- Celsius values are Python floats in the source. The model uses exact
  tenths of a degree, which represent the half-degree Celsius steps exactly;
  float rounding is not modelled.
- The HMAC-SHA1/base64 state string is an opaque input.
- The detector and camera node classes are imported by the controller but not
  defined in the modelled files. Only their discovery records are modelled.
- Thermostats.Thermostat.SetFan: its payload would use the undefined names
  `true`/`false`, so the model never sends. Only the no-op refusal and the
  raise are modelled.
- Thermostats.CommandTemp: the command's value text is abstracted to tenths
  of a degree. So for Fahrenheit a text such as "72.0", which `int()`
  rejects, converts in the model to 72 °F. Only values with a fraction fail.
- Thermostats.Thermostat.SetMode: it uses the corrected mode table
  `NestMode`, not the table as written (see Findings). For code 13 the
  source asks for "away": a thermostat in eco mode is then not refused and
  `{hvac_mode: "away"}` is sent, and in other modes "away" is sent where the
  model sends "eco". The as-written table is `NestModeAsWritten`.

## Findings

| source | as written | input that shows it | evidently intended | confidence | as-written member | corrected member |
|---|---|---|---|---|---|---|
| node_types.py:7 | The mode-command table maps code 13 to "away". | A thermostat in eco mode publishes CLIMD 13 (node_types.py:138-139). A mode command with value 13 then compares "away" with "eco", is not refused as a no-op, and sends `{hvac_mode: "away"}`, a mode the refresh would publish as 0. | Code 13 names "eco", the mode the refresh publishes as 13. | medium, not executed | Thermostats.NestModeAsWritten, Thermostats.AwayDoesNotRoundTrip | Thermostats.NestMode |
