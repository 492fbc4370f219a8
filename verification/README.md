# TFA.me station integration: a Dafny model of its core

This project models the core of the TFA.me Home Assistant integration. A TFA.me gateway
("station") answers `GET /sensors` with a JSON document that lists its sensors and their
measurements. The integration has four parts, and the model covers each:

- **The data coordinator** polls the station. It turns the document into a map from entity key
  (`sensor.<sensor_id>_<measurement>`) to a measurement record. It counts successful polls up
  to 2. It classifies a failed poll as "not ready" (setup is retried) or as "update failed".
- **The measurement entities** each show one value:
  - A value older than the timeout for its device type is "unavailable".
  - A `rain_rel` entity shows the rain since the last reset.
  - A `rain_hour` entity shows the rain of the last hour, using a one-hour history of samples.
  - An entity also has an icon chosen by thresholds, a name, and device id and type strings.
  - New entities are discovered by diffing the polled keys against the list of known ones.
- **The configuration flow** accepts a station host. The host is either a dotted-quad IPv4
  address or an mDNS name of the form `tfa-me-XXX-XXX-XXX.local`. The flow also checks the poll
  interval and routes the options menu.
- **The older entity** of the root-level `sensor.py` has its own type rule, icon table and
  wind-direction table. The model compares it with the newer entity.

Modules, one per file:

- `Wrappers`: `Option`.
- `Text`: Python string operations on `seq<char>`. These are slicing that clamps, ASCII case
  mapping, `replace`, `in`, `split`/`join`, decimal text, `int(_, 16)` digits and `strip`.
- `Values`: the JSON scalars and Python's `int()`, `float()`, truth testing and
  `round(x, 1)`.
- `History`: the rain-hour `SensorHistory` class.
- `Coordinator`: the document, the parse loop, the poll outcome and the `DataCoordinator` class.
- `Sensor`: the newer entity of `custom_components/a_tfa_me_1/sensor.py`, with the
  `SensorEntity` class and discovery.
- `ConfigFlow`: `custom_components/a_tfa_me_1/config_flow.py`.
- `LegacySensor`: the root-level `sensor.py`.

The clock (`datetime.now()`) is the parameter `now`, in Unix seconds. The HTTP request is the
input `FetchResult`: no response, or a status code and a decoded document. The station's answer
to the identifier request in the first form is the input `ConnectResult`. The unique ids of the
existing entries are the input `configured`.

`ConfigEntryNotReady` is raised only while `first_init == 0`
(`custom_components/a_tfa_me_1/coordinator.py:81-93`), i.e. before the first success
(`Coordinator.Poll`, `Coordinator.NoNotReadyAfterSuccess`).

## Model

| member | source | states |
|---|---|---|
| History.SensorHistory.constructor | custom_components/a_tfa_me_1/sensor.py:488-491 | the window is `max_age_minutes * 60` seconds and the history starts empty |
| History.SensorHistory.AddMeasurement | custom_components/a_tfa_me_1/sensor.py:493-496 | the new history is the old one with `(value, ts)` appended at the back, then evicted against `now - max_age` |
| History.SensorHistory.Cleanup | custom_components/a_tfa_me_1/sensor.py:498-509 | the `run`-flag loop leaves exactly `Evict(old data, now - max_age)` |
| History.Evict | custom_components/a_tfa_me_1/sensor.py:498-509 | the survivors are an order-preserving suffix of the buffer; the front survivor is inside the window; every dropped sample was older than the cutoff |
| History.EvictedWithinWindow | custom_components/a_tfa_me_1/sensor.py:503-509 | after eviction from a chronological history, every surviving sample is inside the window |
| History.EvictKeepsRecent | custom_components/a_tfa_me_1/sensor.py:503-509 | when every sample is inside the window, nothing is dropped |
| History.AppendChronological | custom_components/a_tfa_me_1/sensor.py:493-495 | appending a sample no older than the newest keeps the history chronological |
| History.AppendAndEvict | custom_components/a_tfa_me_1/sensor.py:493-509 | append then evict keeps the history chronological, inside the window and ending with the new sample |
| History.LastSurvives | custom_components/a_tfa_me_1/sensor.py:503-509 | a back sample inside the window survives eviction |
| History.SensorHistory.GetOldestAndNewest | custom_components/a_tfa_me_1/sensor.py:515-519 | (None, None) exactly on an empty history, otherwise the first and the last sample; the history is not changed |
| Coordinator.ParseDocument | custom_components/a_tfa_me_1/coordinator.py:59-75 | the parse of a whole document from the empty map: the records by key, or None where the source raises |
| Coordinator.ParseFrom | custom_components/a_tfa_me_1/coordinator.py:59-75 | the outer loop over the sensors, from a given map |
| Coordinator.AddMeasurements | custom_components/a_tfa_me_1/coordinator.py:62-73 | the inner loop over one sensor's measurements, from a given map |
| Coordinator.Classify | custom_components/a_tfa_me_1/coordinator.py:77-93 | a failed poll is "not ready" while `first_init == 0`, else "update failed" |
| Coordinator.ParseSensors | custom_components/a_tfa_me_1/coordinator.py:36-75 | the nested parse loop yields exactly `ParseDocument(doc)`, including failure where a key lookup raises |
| Coordinator.ParseDocumentKeys | custom_components/a_tfa_me_1/coordinator.py:59-68 | a successful parse holds exactly the keys `sensor.<id>_<measurement>` produced by this document, each filed under its own key |
| Coordinator.ParseFromKeys | custom_components/a_tfa_me_1/coordinator.py:59-68 | the parse adds exactly the produced keys to the map it starts from |
| Coordinator.AddMeasurementsKeys | custom_components/a_tfa_me_1/coordinator.py:62-68 | the inner loop adds exactly one key per measurement |
| Coordinator.ParseDocumentFails | custom_components/a_tfa_me_1/coordinator.py:59-73 | the parse fails if and only if some sensor lacks `sensor_id`, or some measurement lacks `value` or `unit`, or a sensor with measurements lacks `name` |
| Coordinator.ParseFromFails | custom_components/a_tfa_me_1/coordinator.py:59-73 | the outer loop fails if and only if one of the remaining sensors is broken |
| Coordinator.AddMeasurementsFails | custom_components/a_tfa_me_1/coordinator.py:62-73 | the inner loop fails if and only if one of the remaining measurements is broken |
| Coordinator.AddMeasurementsRebase | custom_components/a_tfa_me_1/coordinator.py:62-75 | running the inner loop from a non-empty map is running it from the empty map and laying the result over the start map |
| Coordinator.ParseFromRebase | custom_components/a_tfa_me_1/coordinator.py:59-75 | the same for the outer loop |
| Coordinator.ParseFromConcat | custom_components/a_tfa_me_1/coordinator.py:59-75 | parsing two runs of sensors is parsing the first, then the second from its result |
| Coordinator.ParseDocumentRecord | custom_components/a_tfa_me_1/coordinator.py:62-75 | the record under a key comes from the last sensor and measurement that write it: its sensor id, `name`, measurement, `value`, `unit` and `timestamp`, defaulting to "unknown" |
| Coordinator.AddMeasurementsRecord | custom_components/a_tfa_me_1/coordinator.py:65-75 | within one sensor, the last measurement writing a key gives its record |
| Coordinator.ParseFromRecord | custom_components/a_tfa_me_1/coordinator.py:62-75 | across sensors, a record stays when no later sensor writes its key |
| Coordinator.ParseLaterOverwrites | custom_components/a_tfa_me_1/coordinator.py:68 | a later duplicate key overwrites the earlier record (right-biased union), and a failure anywhere fails the whole poll |
| Coordinator.Poll | custom_components/a_tfa_me_1/coordinator.py:51-93 | updated if and only if status 200 with a parsable document, and then the snapshot is the parse; otherwise "not ready" if and only if `first_init == 0`, else "update failed"; the counter only grows, saturates at 2 and goes up by exactly one on a success below 2, and is unchanged otherwise |
| Coordinator.RunPolls | custom_components/a_tfa_me_1/coordinator.py:34-93 | one outcome per poll of a series |
| Coordinator.NeverNotReadyOnceCounted | custom_components/a_tfa_me_1/coordinator.py:77-93 | once the counter is positive, no later poll is "not ready" |
| Coordinator.NoNotReadyAfterSuccess | custom_components/a_tfa_me_1/coordinator.py:77-93 | after one successful poll, no later failure is "not ready" |
| Coordinator.DataCoordinator.constructor | custom_components/a_tfa_me_1/coordinator.py:23-29 | the counter starts at 0, the entity list empty |
| Coordinator.DataCoordinator.UpdateData | custom_components/a_tfa_me_1/coordinator.py:34-93 | the outcome and the new counter are exactly those of `Poll` from the old counter |
| Sensor.GetTimeout | custom_components/a_tfa_me_1/sensor.py:469-476 | the timeout is 0, 150, 630 or 14430 seconds, and 0 exactly for a device type missing from the table |
| Sensor.GetTimeoutIgnoresCase | custom_components/a_tfa_me_1/sensor.py:473 | the device type is read case-insensitively |
| Sensor.FormatTfaType | custom_components/a_tfa_me_1/sensor.py:228-237 | "?" exactly for a device type missing from the table |
| Sensor.TimeoutIffDescribed | custom_components/a_tfa_me_1/sensor.py:55-107 | exactly the described device types have a non-zero timeout |
| Sensor.IsStation | custom_components/a_tfa_me_1/sensor.py:205-209 | `int(sensor_id[:2], 16) < 160`, or None where the conversion raises |
| Sensor.StationIffDigitFirst | custom_components/a_tfa_me_1/sensor.py:205-209 | for two leading hex digits, the device is a station if and only if the first character is a decimal digit |
| Sensor.FormatTfaId | custom_components/a_tfa_me_1/sensor.py:220-225 | the id text: "TFA.me ", the upper-cased id in groups 3-3-rest, and "(GATEWAY)" in multi-entity mode |
| Sensor.FormatTfaIdLayout | custom_components/a_tfa_me_1/sensor.py:220-225 | for an id of at least six characters: "TFA.me ", the upper-cased id in groups 3-3-rest joined by dashes, and "(GATEWAY)" in multi-entity mode |
| Sensor.FormatTfaIdRoundTrip | custom_components/a_tfa_me_1/sensor.py:220-225 | in single-entity mode the id text gives back the upper-cased id |
| Sensor.WindDirectionIconAsWritten | custom_components/a_tfa_me_1/sensor.py:445-466 | the wind-direction table as written, misspelt name included |
| Sensor.WindDirectionAsWrittenMisspelt | custom_components/a_tfa_me_1/sensor.py:453 | the table as written returns the name "mdi:aarrow-bottom-left" for code 2, which is not an icon of the icon table |
| Sensor.WindDirectionIcon | custom_components/a_tfa_me_1/sensor.py:445-466 | the corrected table always returns an icon of the icon table |
| Sensor.WindDirectionCorrectionOnly | custom_components/a_tfa_me_1/sensor.py:445-466 | the correction changes nothing outside the codes 2-3 |
| Sensor.WindDirectionByBucket | custom_components/a_tfa_me_1/sensor.py:445-466 | the closed code ranges [2k, 2k+1] map to the k-th arrow, North first; out-of-range values and values between buckets show the compass |
| Sensor.GetIcon | custom_components/a_tfa_me_1/sensor.py:371-441 | every measurement type yields an icon of the icon table or the help fallback; the wind direction uses the corrected table `Sensor.WindDirectionIcon`, not the one as written |
| Sensor.TemperatureIcon | custom_components/a_tfa_me_1/sensor.py:380-389 | high if and only if at least 25, low if and only if at most 0, default without a value |
| Sensor.HumidityIcon | custom_components/a_tfa_me_1/sensor.py:391-397 | alert if and only if at least 65 or at most 30 |
| Sensor.RssiIconMonotone | custom_components/a_tfa_me_1/sensor.py:408-418 | a stronger signal never shows fewer bars; no value shows one bar |
| Sensor.LowBatteryIcon | custom_components/a_tfa_me_1/sensor.py:420-426 | value 1 shows the alert battery, anything else the full one |
| Sensor.Name | custom_components/a_tfa_me_1/sensor.py:248-257 | the entity name: the sensor name and the measurement, underscores replaced by spaces, or "None" |
| Sensor.NameNoneIffMissing | custom_components/a_tfa_me_1/sensor.py:248-257 | the name is "None" if and only if the record, its `name` or its `measurement` is missing |
| Sensor.NameHasNoUnderscore | custom_components/a_tfa_me_1/sensor.py:248-257 | a name never contains an underscore |
| Sensor.Resolve | custom_components/a_tfa_me_1/sensor.py:273-327 | the value an entity shows, as a function of the shared data, the baseline, the rain history and `now` |
| Sensor.ResolveRelative | custom_components/a_tfa_me_1/sensor.py:285-294 | the `rain_rel` branch: the optional reset, then the value minus the baseline, rounded |
| Sensor.ResolveHour | custom_components/a_tfa_me_1/sensor.py:297-308 | the `rain_hour` branch: push the base entity's sample, evict, then newest minus oldest, rounded |
| Sensor.UnavailableWhenMissingOrStale | custom_components/a_tfa_me_1/sensor.py:277-325 | a missing record, a missing or non-numeric `ts`, or an age above the timeout gives "unavailable", and the read changes nothing |
| Sensor.PlainValueIffFresh | custom_components/a_tfa_me_1/sensor.py:277-327 | a plain entity shows its raw value if and only if its age is at most the timeout (the boundary included), and the read changes nothing |
| Sensor.RelativeResetTakesBaseline | custom_components/a_tfa_me_1/sensor.py:285-294 | a set `reset_rain` makes the current value the baseline and clears the flag in the shared data; a numeric value then shows 0.0 |
| Sensor.RelativeAgainstBaseline | custom_components/a_tfa_me_1/sensor.py:285-294 | without a reset, the value is the current value minus the baseline, rounded to one decimal |
| Sensor.ReadTwiceSameAsOnce | custom_components/a_tfa_me_1/sensor.py:285-294 | reading a plain or `rain_rel` entity twice gives the same value and state as once: the reset fires once |
| Sensor.HourWindow | custom_components/a_tfa_me_1/sensor.py:297-308 | a `rain_hour` read pushes the base entity's sample; the history stays chronological and inside the hour; the value is newest minus oldest, rounded, or 0.0 with fewer than two samples |
| Sensor.PushSampleWindow | custom_components/a_tfa_me_1/sensor.py:297-303 | pushing an in-window sample no older than the newest keeps the history chronological, inside the window, and ending with it |
| Sensor.WindowAmountOfNewest | custom_components/a_tfa_me_1/sensor.py:304-307 | the amount is the new sample against the oldest, or 0.0 with fewer than two |
| Sensor.RelativeRainScenario | custom_components/a_tfa_me_1/sensor.py:285-294 | a reset read of 10.0 shows 0.0, and a later 12.5 then shows 2.5 |
| Sensor.PolledRecordsResolveUnavailable | custom_components/a_tfa_me_1/coordinator.py:68-75 | records as the poll writes them have no `ts`, so every entity reading them is unavailable |
| Sensor.SensorEntity.constructor | custom_components/a_tfa_me_1/sensor.py:167-217 | the baseline is the value at construction, the measure name and gateway come from the record, the rain history is new, empty and one hour long, and a station gets the link `http://<host>/ha_menu` |
| Sensor.SensorEntity.NativeValue | custom_components/a_tfa_me_1/sensor.py:273-327 | the value, the new baseline, the new rain history and the new shared data are exactly those of `Resolve` on the old state |
| Sensor.SensorEntity.ReadRelative | custom_components/a_tfa_me_1/sensor.py:285-294 | the `rain_rel` branch computes what `ResolveRelative` states |
| Sensor.SensorEntity.ReadHour | custom_components/a_tfa_me_1/sensor.py:297-308 | the `rain_hour` branch computes what `ResolveHour` states |
| Sensor.SensorEntity.MeasureWindow | custom_components/a_tfa_me_1/sensor.py:304-307 | newest minus oldest of the rain history, rounded, or 0.0 with fewer than two samples |
| Sensor.NewEntityKeys | custom_components/a_tfa_me_1/sensor.py:126-132 | the keys a pass that does not raise creates: those not yet known, in order |
| Sensor.Discover | custom_components/a_tfa_me_1/sensor.py:126-152 | the keys a pass creates before it stops, and whether it raised: a record without `sensor_id`, or a new record the constructor rejects, stops the pass |
| Sensor.DiscoverNewEntities | custom_components/a_tfa_me_1/sensor.py:126-152 | over the keys of `coordinator.data`, the keys created and the failure are those of `Discover`; the list grows by exactly the created keys, one entity each; a pass that does not fail leaves every key of the data in the list |
| Sensor.DiscoverCompletes | custom_components/a_tfa_me_1/sensor.py:126-152 | the created keys are a prefix of `NewEntityKeys`, and all of them when the pass does not fail |
| Sensor.DiscoverFailsIff | custom_components/a_tfa_me_1/sensor.py:126-152 | a pass fails if and only if some key has no `sensor_id`, or is new and cannot be constructed |
| Sensor.NewEntityKeysExactlyUnknown | custom_components/a_tfa_me_1/sensor.py:128-132 | an entity is created for a key if and only if the key is in the data and was not known |
| Sensor.NewEntityKeysDistinct | custom_components/a_tfa_me_1/sensor.py:128-132 | no entity is created twice |
| Sensor.DiscoverTwiceCreatesNothing | custom_components/a_tfa_me_1/sensor.py:143-155 | discovering again over the same keys creates nothing |
| Values.Round1 | custom_components/a_tfa_me_1/sensor.py:294 | `round(x, 1)` is a whole number of tenths within 0.05 of `x` |
| Values.Round1OfTenthsDifference | custom_components/a_tfa_me_1/sensor.py:291-294 | the rounded difference of two tenths-valued readings is their exact difference |
| Values.Round1Monotone | custom_components/a_tfa_me_1/sensor.py:306-307 | rounding is monotone |
| ConfigFlow.OctetMeaning | custom_components/a_tfa_me_1/config_flow.py:138-141 | the octet alternatives accept exactly the decimal numbers 0..255 written without a leading zero |
| ConfigFlow.Ipv4TextAccepted | custom_components/a_tfa_me_1/config_flow.py:138-143 | every dotted quad of four values 0..255 is accepted |
| ConfigFlow.Ipv4CoreOnlyQuads | custom_components/a_tfa_me_1/config_flow.py:138-143 | every accepted address is such a dotted quad |
| ConfigFlow.MdnsCoreIffName | custom_components/a_tfa_me_1/config_flow.py:146-148 | the mDNS pattern accepts exactly `tfa-me-` plus three groups of three hex digits in either case plus `.local` |
| ConfigFlow.MdnsPrefixIsCaseSensitive | custom_components/a_tfa_me_1/config_flow.py:147 | an upper-case prefix is rejected |
| ConfigFlow.TrailingNewline | custom_components/a_tfa_me_1/config_flow.py:142-148 | the end anchor `$` lets one trailing newline through, never two |
| ConfigFlow.IsValidIpOrMdns | custom_components/a_tfa_me_1/config_flow.py:129-155 | acceptance needs `ip_address` present and a string |
| ConfigFlow.EffectiveInterval | custom_components/a_tfa_me_1/config_flow.py:70-73 | an int interval is kept, and a missing or non-int one becomes 60 |
| ConfigFlow.StepUser | custom_components/a_tfa_me_1/config_flow.py:54-114 | the decision table of the first form: no input shows an empty form; an interval of at most 9 shows "invalid_interval"; an invalid host shows "invalid_ip_host"; a connection error shows "cannot_connect" or "unknown" and also "invalid_ip_host"; a known identifier aborts; otherwise an entry titled "TFA.me Station '<host>'" is created. An entry needs an interval of at least 10 and a valid host, and a submitted form that comes back always has an error |
| ConfigFlow.StepInit | custom_components/a_tfa_me_1/config_flow.py:166-210 | the options menu dispatch: no input shows the menu, an `interval` key sets the interval, otherwise the selected option picks its step |
| ConfigFlow.IntervalKeyWins | custom_components/a_tfa_me_1/config_flow.py:171-172 | an `interval` key routes to the interval step whatever the selected option |
| ConfigFlow.MenuValuesRoute | custom_components/a_tfa_me_1/config_flow.py:174-194 | each menu value except "none" routes to its own step; "none" shows the menu |
| ConfigFlow.ShowMenuIff | custom_components/a_tfa_me_1/config_flow.py:168-210 | the menu is shown if and only if there is no input, or no `interval` and no known option |
| LegacySensor.FormatTfaId | sensor.py:128-130 | the older id text: "TFA.me " and the upper-cased id in groups 3-3-rest |
| LegacySensor.FormatTfaIdAsSingleEntity | sensor.py:128-130 | the older id text equals the newer one in single-entity mode |
| Text.IntBase16 | sensor.py:137 | `int(t, 16)` of at most two characters lies in -15..255, or raises |
| LegacySensor.FormatTfaType | sensor.py:133-142 | "Station type XX" or "Sensor type XX" by the station rule, or None where the conversion raises |
| LegacySensor.StationTypeIffConfigurationUrl | sensor.py:116-142 | the type text is "Station ..." exactly for the devices that get the configuration link; for two leading hex digits it always exists and ends with them upper-cased |
| LegacySensor.MeasurementName | sensor.py:165-174 | the record's `measurement`, and None exactly when the record or the field is missing |
| LegacySensor.Name | sensor.py:153-161 | None if and only if the record or one of the two fields is missing; never an underscore |
| LegacySensor.WindDirectionIcon | sensor.py:297-315 | the older table always returns an icon of the icon table |
| LegacySensor.GetIcon | sensor.py:235-293 | every measurement type yields an icon of the icon table or the help fallback |
| LegacySensor.Icon | sensor.py:223-232 | "mdi:help" if and only if the state is not convertible to a number |
| LegacySensor.GetIconAgreesExceptWind | sensor.py:235-293 | apart from the wind direction, both files choose the same icon for a number |
| LegacySensor.WindTablesOpposite | sensor.py:297-315 | outside codes 8-9, the newer wind table shows what the older one shows for the opposite direction |
| LegacySensor.WindTablesDifferAtSouth | sensor.py:305-306 | at codes 8-9 the newer table points up where the older one shows the compass for the opposite direction |
| LegacySensor.State | sensor.py:178-187 | the raw value of the record, or None when the record or its value is missing |
| LegacySensor.NewValueIsOldStateWhenFresh | sensor.py:178-187 | for a fresh plain entity, the newer entity shows the older entity's raw state |

## Left out

- HTTP, DNS and timeouts: the aiohttp session, the 5-second timeout, `response.json()` and `resolve_mdns`. They are the input `FetchResult`. A body that does not decode to the document shape is `body: None`.
- Home Assistant plumbing is not modelled. That covers entity registration, `async_add_entities`, form rendering, notifications, services and config-entry updates. The files `__init__.py`, `button.py` and `data.py` are not part of this model, nor is `const.py`. The key `CONF_INTERVAL` is taken to be "interval".
- Logging calls.
- Floating point: readings are exact reals, and `round(x, 1)` is exact rounding to tenths with ties to even (`Values.Round1`). The binary representation of Python floats is not modelled, so a float subtraction that lands just beside a tie may round the other way in Python.
- `Text.IntBase16` and `Text.IsSpace` know only ASCII. Python's `int(t, 16)` also accepts other Unicode decimal digits and Unicode whitespace, so `int("\u00a01", 16)` is 1 where the model gives None. Sensor ids are hex text from the device, so the model does not depend on this.
- Numeric strings: `Values.IntOf` and `Values.FloatOf` treat every string as unconvertible. Python's `int("17")` and `float("2.5")` would accept some.
- Document shape: a field of the wrong JSON type, such as a `measurements` value that is not an object, is not represented. Only the presence of each key is modelled.
- `sensor_entity_list` starts as the set `{Entity}` in the coordinator, but the sensor code appends to it as a list. The model uses the list semantics, starting empty.
- `Sensor.SensorEntity.constructor` requires `Sensor.Constructible`: the record with `gateway_id`, `measurement` and a numeric `value`, and a sensor id whose first two characters convert with `int(_, 16)`. The source raises there instead (custom_components/a_tfa_me_1/sensor.py:179, 205, 212-217). That raise is modelled at the discovery loop: `Sensor.DiscoverNewEntities` checks the same condition and stops the pass. `device_info`, the unique id, the unit and the extra state attributes are not modelled.
- `Sensor.DiscoverNewEntities` stops at the first failure with the keys already appended, as the source does. It does not model what follows the raise: the entities created before it are never registered, setup turns the error into `ConfigEntryNotReady` (custom_components/a_tfa_me_1/sensor.py:137-140), and the discovery service lets it propagate. `coordinator.multiple_entities`, which the constructor reads, is a parameter of `Sensor.FormatTfaId` rather than a coordinator field.
- `Sensor.SensorEntity.NativeValue`: the rain-hour branch of the source appends the raw `(value, ts)` pair to the history. It converts only the front `ts` during cleanup (custom_components/a_tfa_me_1/sensor.py:503) and the oldest and newest values (custom_components/a_tfa_me_1/sensor.py:306). The model converts both fields of the new sample first. When either is non-numeric, it shows "unavailable" and leaves the history as it was. It stores only numeric samples. The two differ in these cases:
  - (a) A non-numeric base value with a numeric `ts`, when fewer than two samples remain after cleanup: the source stores the pair and shows 0.0; the model shows "unavailable". The pair stays in the source's history, so later reads differ as in (c).
  - (b) A numeric value with a non-numeric `ts`, pushed behind a numeric front sample inside the window: cleanup stops at the front, and the source shows `round(newest - oldest, 1)`; the model shows "unavailable". The pair stays in the source's history, as in (d).
  - (c) A stored pair with a non-numeric value makes `float(oldest[0])` or `float(newest[0])` raise whenever it is the oldest or the newest of two or more samples. The source then shows "unavailable" on every such read until the pair leaves the hour window. The model never stored the pair and shows newest minus oldest of the numeric samples. For example: an empty history, a read of "abc" with a fresh `ts`, then a read of 5.0. The source holds `[("abc", t1), (5.0, t2)]` and shows "unavailable"; the model holds one sample and shows 0.0.
  - (d) A stored pair with a non-numeric `ts` is harmless while it is not at the front. Once it reaches the front, every later cleanup raises, so the entity stays "unavailable" for good in the source. The model never stores one.
  - A non-numeric value in the middle of the history is never converted; it matters only once it becomes the oldest sample, as in (c).
- `Sensor.SensorEntity.NativeValue`: `cleanup` reads the clock again. The model uses the same `now` for the staleness check and the eviction.
- `Sensor.SensorEntity.NativeValue`: an exception other than `ValueError`, `TypeError` or `KeyError` from the rain-hour branch propagates in the source. Every failure there is "unavailable" in the model.
- `Sensor.GetIcon` takes an already-converted number. The newer `icon` property calls `native_value` and then `float()` on it, which raises on a non-numeric value. That composition is not modelled.
- `self.multiple_entities` is stored by the first form and passed to `FormatTfaId` as a parameter. Where it comes from is not modelled.
- The options steps themselves (set interval, discover sensors, reset rain, update data) and the rain-reset flag they set are host plumbing. Only the dispatch is modelled.
- The coordinator never writes `ts`, `gateway_id` or `reset_rain`, which the entities read. The entity data type has them as optional fields, and `Sensor.PolledRecordsResolveUnavailable` states the consequence.
- Both files apply the same configuration-link rule (custom_components/a_tfa_me_1/sensor.py:205-209 and sensor.py:116-120). It is modelled once, as `Sensor.IsStation`.
- `LegacySensor.FormatTfaType` returns None where `int(s[:2], 16)` raises. In the source the older constructor would then fail.
- `Sensor.GetIcon` uses the corrected wind-direction table. As written, a wind direction of 2-3 gives the name "mdi:aarrow-bottom-left" (see Findings, `Sensor.WindDirectionIconAsWritten`).

## Findings

| source | as written | input that shows it | evidently intended | confidence | as-written member | corrected member |
|---|---|---|---|---|---|---|
| custom_components/a_tfa_me_1/sensor.py:453 | the wind-direction icon for codes 2-3 is "mdi:aarrow-bottom-left", a name that is not in the icon set | a wind direction of 2.0 | "mdi:arrow-bottom-left", the icon the older table uses for the opposite direction | high; not executed | Sensor.WindDirectionAsWrittenMisspelt | Sensor.WindDirectionIcon |

Three behaviours look odd but are modelled as written, because the intent is not evident:

- lowbatt value 1 shows the alert battery (`Sensor.LowBatteryIcon`).
- A connection error in the first form also reports "invalid_ip_host" (`ConfigFlow.StepUser`).
- The poll writes no `ts`, `gateway_id` or `reset_rain` into the records, yet the entities read them, so every entity over polled records is unavailable (`Sensor.PolledRecordsResolveUnavailable`). Which fields the station sends is not visible in this code.
