# Heatly room-heating integration — Dafny model

Heatly is a Home Assistant integration that posts a room's temperature readings to a remote
control service and switches a heater entity on or off from the service's answer. This project
models the code of three generations of the integration:

- the remote clients: the first one (`api_client.py`, fixed base URL, no outdoor value), the
  heatly-alpha one (URL normalisation, optional outdoor value) and the heatly_test one, which
  adds a time-to-live cache for the schedule list and the schedule selection call;
- the thermostat entity in its three versions (`heatly/climate.py`, `heatly_test/climate.py`,
  `heatly_test/__init__.py`), each a class whose methods change the HVAC mode, the target
  temperature and the extra state attributes and append the service calls they emit to a log;
- the update dispatch (`heatly/__init__.py`, `__init__.py`): when a reading is posted, which
  indoor and outdoor values are posted, and when the answer is handed to the thermostat.

The network is a function `net: Request -> Outcome`, where an outcome is an HTTP status with its
decoded body, the 10-second timeout, or any other error (a 200 whose body does not decode is an
error). Time is a `real` parameter `now`, and `int(time.time())` is written out as truncation
toward zero (`Http.Trunc`). Parsing a float is a function parameter
`parse: string -> Option<real>`. The host's state machine is a map `states` from entity id to
state string. The host's shared dictionary `hass.data` is a map of maps. Service calls are
appended to the log `calls`. Decoded JSON is the datatype `JsonValues.Json`, with `JNull` for
Python's `None` and `Truthy` for Python truthiness.

Where a version calls `float()` without a guard, the model makes a readable state that parses a
precondition. Where a version calls `.get` on a response without a guard, the
`UpdateFromResponse` method has a `raised` result and leaves the entity as it was. The guarded
version (`heatly_test/__init__.py`) swallows the same error.

The code has no hysteresis controller, minimum switching interval, AUTO/LOCAL arbitration,
multi-heater fan-out, API-key header, empty-name rejection, `remote_available` attribute, or
separate failure kinds for 401/403/404. The model follows the code. In the code, every status
other than 200 and every exception gives `None` (or `False`). `update_room_schedule` posts any
name it is given.

Notes on the wiring, from reading the code:

- `heatly_test/climate.py:14` calls the four-argument constructor declared at line 22 with three
  arguments. The model has the four-argument constructor.
- `heatly/__init__.py:40` looks the thermostat up under `"thermostat_entity"`. `heatly/climate.py`
  never stores it there, so in that package the response is never forwarded.
  `HeatlySetup.SendSensorUpdate` forwards only when an entity is stored under that key, and
  `HeatlySetup.ClientOnlyRegistryNeverForwards` shows that a registry holding only the client
  never forwards.

## Model

| member | source | states |
|---|---|---|
| `Strings.StripTrailing` | custom_components/heatly_test/api_client.py:13 | `rstrip('/')` yields a prefix of the URL that does not end in `/`, and everything it removed was `/` |
| `Strings.StripTrailingUnique` | custom_components/heatly_test/api_client.py:13 | those three facts determine the stripped URL uniquely |
| `Strings.StripTrailingAppended` | custom_components/heatly_test/api_client.py:13 | stripping removes any number of trailing slashes appended to a URL that has none |
| `Strings.DomainOf` | custom_components/heatly_test/__init__.py:101 | `split(".")[0]` is the prefix of the entity id before its first `.`, or the whole id if it has no `.` |
| `Strings.DomainOfQualified` | custom_components/heatly_test/climate.py:91 | the domain of `domain.object` is `domain` (splitting inverts joining) |
| `Strings.DomainOfUnqualified` | custom_components/heatly/climate.py:69 | an id without `.` is its own domain |
| `Options.GetOrAfterStore` | custom_components/heatly_test/__init__.py:60 | `dict.get(k, default)` is the definition `GetOr`: the stored value when the key is present, else the default. The lemma only notes that this lookup reads back the last store under `k` and ignores stores under other keys |
| `JsonValues.Truthy` | custom_components/heatly_test/__init__.py:55 | Python truthiness, as `if not response`, `if schedules` and `if component and response` use it: the false values are exactly None, False, 0, 0.0, `""`, `[]` and `{}` |
| `Http.Trunc` | custom_components/heatly_test/api_client.py:25 | `int()` of the clock truncates toward zero |
| `Http.SensorPayload` | custom_components/heatly_test/api_client.py:23-28 | the payload always has `temperature` and `timestamp`, has `outdoor_temp` exactly when an outdoor value is given, and no other key |
| `HeatlyTestApi.HeatlyApiClient.constructor` | custom_components/heatly_test/api_client.py:11-16 | `base_url` is the stripped URL and has no trailing `/`; `url` is `base_url + "/api/room/" + room_id`; the cache is None and the fetch time 0 |
| `HeatlyTestApi.HeatlyApiClient.SensorRequest` | custom_components/heatly_test/api_client.py:23-30 | the reading is posted to `url + "/sensor"` with the sensor payload |
| `HeatlyTestApi.HeatlyApiClient.SendSensorData` | custom_components/heatly_test/api_client.py:18-41 | status 200 gives the decoded body; any other status, a timeout or an error gives None |
| `HeatlyTestApi.CacheLifetime` | custom_components/heatly_test/api_client.py:45-58 | with the hit test of line 46 modelled by `IsHit`: schedules fetched at `t` answer every later call made before `t + 600` from the cache, with no request and no change; a call from `t + 600` on sends the GET again |
| `HeatlyTestApi.FetchedSchedules` | custom_components/heatly_test/api_client.py:53-65 | a response brings schedules exactly when it is a 200 whose `schedules` member (default `{}`) is non-empty |
| `HeatlyTestApi.FetchSchedules` | custom_components/heatly_test/api_client.py:45-71 | a hit (non-empty cache younger than 600 s) returns the cache with no request and no change; a miss sends one GET; non-empty schedules replace mapping and timestamp together with the `now` read first; anything else returns None and changes nothing; a non-empty cache stays non-empty |
| `HeatlyTestApi.HeatlyApiClient.GetAvailableSchedules` | custom_components/heatly_test/api_client.py:43-71 | the method's new cache fields, result and request are those `FetchSchedules` gives for the old cache |
| `HeatlyTestApi.CacheStaysNonEmpty` | custom_components/heatly_test/api_client.py:56-58 | over any series of calls, a cache that once holds schedules never becomes empty or None |
| `HeatlyTestApi.CacheComesFromResponses` | custom_components/heatly_test/api_client.py:56-58 | after any series of calls the cache is the initial one or a mapping some call's response delivered, stamped with that call's time |
| `HeatlyTestApi.FreshClientMisses` | custom_components/heatly_test/api_client.py:15-47 | the first schedules call of a fresh client, at any time and whatever the network answers, sends the GET for `/api/schedules` |
| `HeatlyTestApi.ScheduleRequestIdentifiesName` | custom_components/heatly_test/api_client.py:78-79 | the selection post is modelled by `ScheduleUpdateRequest`: a POST of `{"active_schedule": name}` to `url + "/schedule"`. It determines the schedule name (different names, different requests) and is never the sensor post |
| `HeatlyTestApi.HeatlyApiClient.UpdateRoomSchedule` | custom_components/heatly_test/api_client.py:73-91 | True exactly on status 200; it reads no cache field and changes nothing |
| `HeatlyAlphaApi.NewClient` | custom_components/heatly-alpha/api_client.py:10-13 | `base_url` has no trailing `/` and `url == base_url + "/api/room/" + room_id` |
| `HeatlyAlphaApi.SensorRequest` | custom_components/heatly-alpha/api_client.py:20-27 | the post goes to `url + "/sensor"` with `temperature`, `timestamp` and `outdoor_temp` only when given |
| `HeatlyAlphaApi.SendSensorData` | custom_components/heatly-alpha/api_client.py:15-38 | status 200 gives the body; another status, a timeout or an error gives None |
| `RootApi.NewClient` | api_client.py:10-11 | `url == BASE_URL + "/api/room/" + room_id`, with BASE_URL unchanged |
| `RootApi.SensorRequest` | api_client.py:18-19 | the payload has exactly the keys `temperature` and `timestamp` |
| `RootApi.SendSensorData` | api_client.py:13-23 | status 200 gives the body, otherwise None; every exception gives None |
| `Hass.ReadableAfterStateWrite` | custom_components/heatly/__init__.py:23-24 | `state and state.state not in ["unknown", "unavailable"]` is the definition `Readable`: the entity has a state, and `Available` holds of it (neither placeholder). The lemma only notes that after a write of `v` the entity is readable exactly when `v` is not a placeholder, that an entity with no state is not readable, and that writes to other entities do not change this |
| `Hass.HeaterOnExactlyWhenReported` | custom_components/heatly_test/__init__.py:60-64 | with `response.get("heater_state", "off")` (modelled by `HeaterState`), a response turns the heater on and sets HEAT exactly when it reports `"on"`; one without the key turns the heater off |
| `Hass.TruthyTemperatureIsTruthy` | custom_components/heatly_test/__init__.py:89 | `if temp:` (modelled by `TruthyTemperature`) is Python truthiness of the keyword's value, so None and 0.0 leave the target |
| `Hass.RegisteredExactlyUnderThermostatKey` | __init__.py:21-22 | `hass.data[DOMAIN].get("thermostat_entity")` (modelled by `EntityRegistered`) finds an entity once one is stored under that key; a registry holding only a client under an entry id finds none |
| `Hass.HeaterCommand` | custom_components/heatly_test/__init__.py:99-108 | `_set_heater_state` emits `turn_on` exactly for `"on"`, else `turn_off`, to the entity id, under the domain before the id's first `.` |
| `Hass.ModeForHeater` | custom_components/heatly_test/__init__.py:64 | the mode is HEAT exactly when the heater state is `"on"`, else OFF |
| `Hass.ResponseAttributes` | custom_components/heatly_test/__init__.py:67-71 | the attributes are exactly `trajectory`, `strategy`, `prediction_age`, defaulting to `[]`, `{}` and `0` |
| `Hass.Register` | __init__.py:11-12 | the client is stored under `[DOMAIN][entry_id]`, the domain slot is created if missing, and every other entry is unchanged |
| `Hass.RegisterKeepsEntityLookup` | __init__.py:11-12 | storing a client under an entry id does not change whether a thermostat entity is found |
| `HeatlyTestEntity.HeatlyThermostat.constructor` | custom_components/heatly_test/__init__.py:31-47 | a fresh entity has mode OFF, target 20.0, min 5.0, max 35.0, empty attributes, offered modes [HEAT, OFF], and no calls |
| `HeatlyTestEntity.HeatlyThermostat.UpdateFromResponse` | custom_components/heatly_test/__init__.py:53-74 | a falsy or non-dictionary response changes nothing; a dictionary emits one heater command for `heater_state` (default `"off"`), sets HEAT iff `"on"`, replaces the attributes wholesale, and keeps the target |
| `HeatlyTestEntity.HeatlyThermostat.CurrentTemperature` | custom_components/heatly_test/__init__.py:76-85 | None for a missing, `"unknown"`, `"unavailable"` or unparseable state, otherwise the parsed value |
| `HeatlyTestEntity.HeatlyThermostat.SetTemperature` | custom_components/heatly_test/__init__.py:87-91 | the target changes only for a truthy value (None and 0 leave it), with no clamping |
| `HeatlyTestEntity.HeatlyThermostat.SetHvacMode` | custom_components/heatly_test/__init__.py:93-97 | the mode is always stored; OFF emits exactly one `turn_off`, any other mode emits nothing |
| `HeatlyTestEntity.HeatlyThermostat.SetHeaterState` | custom_components/heatly_test/__init__.py:99-110 | exactly one call is appended, the one `HeaterCommand` gives |
| `HeatlyTestClimate.HeatlyThermostat.constructor` | custom_components/heatly_test/climate.py:22-38 | a fresh entity has mode HEAT, target 20.0, min 5.0, max 35.0 and empty attributes |
| `HeatlyTestClimate.HeatlyThermostat.UpdateFromResponse` | custom_components/heatly_test/climate.py:44-62 | a falsy response is a no-op; a truthy non-dictionary raises and changes nothing; a dictionary emits one command, sets HEAT iff `"on"` and stores the three attributes |
| `HeatlyTestClimate.HeatlyThermostat.CurrentTemperature` | custom_components/heatly_test/climate.py:64-69 | None for a missing, `"unknown"` or `"unavailable"` state, otherwise the parsed value, which must parse |
| `HeatlyTestClimate.HeatlyThermostat.SetTemperature` | custom_components/heatly_test/climate.py:71-78 | the target changes only for a truthy temperature |
| `HeatlyTestClimate.HeatlyThermostat.SetHvacMode` | custom_components/heatly_test/climate.py:80-85 | the mode equals the request; OFF emits one `turn_off`, other modes nothing |
| `HeatlyTestClimate.HeatlyThermostat.SetHeaterState` | custom_components/heatly_test/climate.py:87-97 | one call to the switch's domain, `turn_on` iff `"on"` |
| `HeatlyClimate.HeatlyThermostat.constructor` | custom_components/heatly/climate.py:14-25 | a fresh entity has no mode set, target 20.0, offered modes [HEAT, OFF], empty attributes |
| `HeatlyClimate.HeatlyThermostat.UpdateFromResponse` | custom_components/heatly/climate.py:32-47 | mode and target never change; a falsy response is a no-op; a dictionary emits one command (`turn_on` iff `"on"`, default `"off"`) and sets exactly the three attributes |
| `HeatlyClimate.HeatlyThermostat.CurrentTemperature` | custom_components/heatly/climate.py:49-52 | None for a missing, `"unknown"` or `"unavailable"` state, otherwise the parsed value |
| `HeatlyClimate.HeatlyThermostat.SetTemperature` | custom_components/heatly/climate.py:54-57 | the given value is stored unconditionally, None included |
| `HeatlyClimate.HeatlyThermostat.SetHvacMode` | custom_components/heatly/climate.py:59-64 | the mode is always stored; OFF emits one `turn_off`, others nothing |
| `HeatlyClimate.HeatlyThermostat.SetHeaterState` | custom_components/heatly/climate.py:66-70 | one call to the domain before the switch id's first `.` |
| `HeatlySetup.ApiUrl` | custom_components/heatly/__init__.py:15 | the configured API URL, or the default when none is configured |
| `HeatlySetup.OutdoorTemperature` | custom_components/heatly/__init__.py:27-35 | an outdoor value only when a non-empty outdoor sensor is configured, its state is a reading, and it parses |
| `HeatlySetup.SendSensorUpdate` | custom_components/heatly/__init__.py:21-42 | nothing is sent for a missing, `"unknown"` or `"unavailable"` state; otherwise the parsed indoor value and the outdoor value are sent once, and the response is forwarded iff an entity is registered and the response is truthy; the periodic tick (lines 53-55) runs exactly this |
| `HeatlySetup.SensorChanged` | custom_components/heatly/__init__.py:45-48 | an event runs the update only when `new_state` exists and is a reading; otherwise nothing happens |
| `HeatlySetup.ClientOnlyRegistryNeverForwards` | custom_components/heatly/__init__.py:18-42 | with only the client registered under its entry id (line 18), the lookup at line 40 finds nothing, so no update forwards its response |
| `HeatlySetup.UpdateSendsEntityReading` | custom_components/heatly/__init__.py:23-25 | the update sends exactly when the package's thermostat reads a temperature, and sends that value |
| `RootSetup.SensorChanged` | __init__.py:15-23 | an event without a reading sends nothing; otherwise its parsed state is sent once, with no outdoor value, and the response is forwarded iff a `"thermostat_entity"` is registered and the response is truthy |
| `RootSetup.SetupKeepsForwarding` | __init__.py:11-23 | registering the client under its entry id does not change what the handler sends or forwards |
| `Variants.GuardedReadingExtendsUnguarded` | custom_components/heatly_test/__init__.py:79-85 | where the unguarded readings of the two climate.py versions are defined, the guarded reading agrees with both |
| `Variants.GuardedReadingOnUnparseable` | custom_components/heatly_test/__init__.py:81-84 | where those would raise on an unparseable state, the guarded reading is None |
| `Variants.TestClientAgreesWithAlpha` | custom_components/heatly_test/api_client.py:18-41 | the heatly_test client posts the same request as the alpha client and reads the answer the same way |
| `Variants.AlphaIgnoresTrailingSlashes` | custom_components/heatly-alpha/api_client.py:12-13 | any number of trailing slashes on the configured URL gives the same client |
| `Variants.RootAgreesWithAlpha` | api_client.py:11-20 | for a base URL without a trailing `/`, the first client is the alpha client without an outdoor value |
| `Variants.RootKeepsTrailingSlash` | api_client.py:11 | for every base URL ending in `/`, the first client's URL has `//` where the base ends, and differs from the alpha client's URL |

## Left out

- HTTP transport: sessions, the 10-second `async_timeout`, and JSON decoding are the abstract `net` function and its `Outcome`. A body that fails to decode counts as `Error`.
- The wall clock: `time.time()` is the parameter `now`.
- Float parsing: `float(s)` is the function parameter `parse`. Formatting floats is not modelled.
- Logging calls: they have no behaviour to verify.
- Host runtime: `async_write_ha_state`, `async_add_entities`, `async_track_state_change_event`, `async_track_time_interval` and `async_forward_entry_setups` are foreign calls and are not modelled. A service call is an entry appended to `calls`; whether the host then fails it is not modelled. The guarded version catches that failure and the others would propagate it.
- periodic_update (heatly/__init__.py:53-55) calls the update with no condition, so it is `HeatlySetup.SendSensorUpdate` itself and has no member of its own.
- The `async_setup_entry` functions of `heatly_test/__init__.py`, `heatly_test/climate.py` and `heatly/climate.py` only look up and store references in `hass.data`. The three-argument call at `heatly_test/climate.py:14` is noted above, not modelled.
- The entity's `hass` and `api_client` references, `supported_features`, `temperature_unit` and the `extra_state_attributes` property: stored or returned as they are, with no logic.
- HeatlyClimate.HeatlyThermostat: `min_temp` and `max_temp` are not set by that constructor. They fall back to host defaults, which are not part of this model.
- HeatlyTestEntity.HeatlyThermostat.CurrentTemperature: a state value is a string in the model, so the `None` entry in the list of non-readings at `heatly_test/__init__.py:80` never matches anything.
- `custom_components/heatly/api_client.py`, `custom_components/heatly/const.py` and the top-level `const.py` are not part of this model. The heatly dispatch takes the client call as the parameter `send`. `DEFAULT_API_URL` and `BASE_URL` are parameters.
- Dictionary key order, in payloads and attributes: maps are unordered.
- The configuration forms and the constant files. Of the constants, the model uses the schedule cache lifetime (600 seconds) and the configuration key names listed below.
- Concurrent updates: each handler run (`sensor_changed`, `periodic_update`, `send_sensor_update`) and each entity method completes before any other starts. In the code, they await the post (heatly/__init__.py:37) and the heater service call (heatly_test/__init__.py:61, heatly_test/climate.py:51, heatly/climate.py:39). So two runs can overlap, and their responses reach `update_from_response` in the order the requests finish, not the order of the readings.
- Concurrent schedule calls: in the model, calls never overlap. In the code, two `get_available_schedules` coroutines can interleave at the awaits on heatly_test/api_client.py:49-54, between the `now` read at line 45 and the store at line 58, so both can miss, and the last one to finish stores its own, possibly older, `now`. `Replay` runs the calls strictly one after another.
- HeatlyTestApi.CacheStaysNonEmpty: the cache is returned as a value. At heatly_test/api_client.py:47,59 the code returns the live dictionary, so a caller that mutates it changes the cache. The lemma assumes no caller does so, and no caller in the modelled code does.
- The configuration key names `"api_url"`, `"temp_sensor"`, `"heater_switch"` and `"room_id"` are taken from `heatly_test/const.py`, since `heatly/const.py` is not part of this model.
- HeatlyClimate.HeatlyThermostat.CurrentTemperature: `heatly/climate.py:49` defines `current_temperature` as a plain method without `@property`. The model treats it as a call.
- Hysteresis, minimum switching interval, AUTO/LOCAL arbitration, several heaters per room, the API-key header, rejecting empty schedule names and the `remote_available` attribute: the modelled code holds none of them.
