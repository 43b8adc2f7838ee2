# E-Redes Smart Metering Plus — a Dafny model of the per-meter state machine

This project models the core of the E-Redes Smart Metering Plus integration for Home Assistant. A
smart meter, identified by its CPE string, posts JSON readings to a webhook. The integration then:

- creates, on the fly and only once, one sensor entity per (CPE, catalog field), plus a
  breaker-limit number entity and a breaker-overload binary sensor per CPE;
- routes each reading to its sensor through a dispatcher signal;
- refuses decreasing values on the two energy counters (`total_increasing`);
- rebuilds its entities at startup by parsing the unique ids stored in the entity registry: every
  breaker-limit and overload entity, and every sensor whose CPE is non-empty. The webhook accepts an
  empty `cpe`, but the sensor restore scan skips the entries such a sensor leaves, while the limit and
  the overload entity of that CPE come back.

Modules, which follow the integration's files:

- `Catalog` (`catalog.dfy`, from `const.py`): the seven-row `SENSOR_MAPPING` as a datatype `Entry`
  with its field names, keys and configurations, the calculated-sensor table, and the webhook
  constants.
- `Identifiers` (`identifiers.dfy`): unique ids, entity-dictionary keys and signal names, built from
  a CPE and a key, and the parses the restore scans apply to them.
- `Sensors` (`sensor.dfy`, from `sensor.py`): the update policy as pure functions `Apply` and `Replay`. The class
  `Sensor` is the entity, with the mutable native value and last-update time. The class
  `SensorPlatform` holds the per-entry `entities` dictionary and the sensor `add_entities` callback.
- `Numbers` (`number.dfy`, from `number.py`): the class `BreakerLimit` (default, restore, setter) and the class
  `NumberPlatform`, which holds `number_entities` and `number_add_entities`.
- `BinarySensors` (`binary_sensor.dfy`, from `binary_sensor.py`): the class `OverloadSensor` (`_check_overload`) and the class
  `BinarySensorPlatform`, which holds `binary_sensor_entities` and `binary_sensor_add_entities`.
- `Webhook` (`webhook.dfy`, from `webhook.py`): the class `Hass`, holding one config entry's three platforms, the
  device registry as a set of CPEs, and the log of dispatcher sends. It provides
  `handle_webhook`, `async_ensure_device` and `async_process_sensor_data`.
- `Host`, `Strings`, `Wrappers`: registry entries, callback ids and instants; sequence lemmas; and
  `Option`.

How host services appear in the model:

- An `add_entities` callback is an `Option<CallbackId>`. None means the key is absent, or is None in
  the per-entry dictionary. Every call of a callback is logged in `addCalls` with its batch.
- The entity registry is a sequence of `RegistryEntry` values.
- Parsing the JSON body is an `Option<Body>`. Parsing a clock string, and the host's clock, are
  parameters (`parsed`, `now`). A restored last state and its `float` conversion are parameters
  (`last`, `parsed`).
- Calling the sensor callback while it is still None raises `TypeError`. In the model that is
  `ok == false` with nothing changed, and the webhook then answers 500.

Each sensor's reading is observed through `SensorPlatform.View()`, a map from entity key to
(value, last update). The operations that change the dictionary or a sensor state their effect on
that map in terms of the pure functions `EnsureKey`, `EnsureFields`, `Apply` and `Ingest`. The
lemmas then prove what those functions promise.

## Model

| member | source | states |
|---|---|---|
| Catalog.Config | custom_components/e_redes_smart_metering_plus/const.py:16-73 | every row's configuration carries that row's sensor key and state class |
| Catalog.FindFieldFound | custom_components/e_redes_smart_metering_plus/sensor.py:243-248 | a found row is in the table and has the requested field name; no row is found only when no row has that name |
| Catalog.FindKeyFound | custom_components/e_redes_smart_metering_plus/sensor.py:78-82 | a found row carries the requested key; none is found only when no row carries it |
| Catalog.FindKeyAt | custom_components/e_redes_smart_metering_plus/sensor.py:79-82 | the key scan returns the first row carrying the key |
| Catalog.FieldNamesDistinct | custom_components/e_redes_smart_metering_plus/const.py:16-73 | the seven field names are pairwise distinct |
| Catalog.KeysDistinct | custom_components/e_redes_smart_metering_plus/const.py:16-73 | the seven sensor keys are pairwise distinct |
| Catalog.LookupFieldName | custom_components/e_redes_smart_metering_plus/const.py:16-73 | looking up a row's field name in `SENSOR_MAPPING` gives that row |
| Catalog.LookupNone | custom_components/e_redes_smart_metering_plus/sensor.py:243-245 | a field is unmapped exactly when it is no row's field name |
| Catalog.FindKeyOfKey | custom_components/e_redes_smart_metering_plus/sensor.py:77-85 | the configuration scan of the restore always finds the row of a matched key, so its `continue` is never taken |
| Catalog.TotalIncreasingEntries | custom_components/e_redes_smart_metering_plus/const.py:33-63 | a row is `total_increasing` exactly when it is `activeEnergyImport` or `activeEnergyExport`; all others are `measurement` |
| Catalog.NoKeyIsSuffixOfAnother | custom_components/e_redes_smart_metering_plus/const.py:16-73 | for two different rows, `"_" + key1` is never a suffix of `"_" + key2` |
| Catalog.CalculatedSourcesAreRawKeys | custom_components/e_redes_smart_metering_plus/const.py:76-86 | both source sensors of the calculated current are raw sensor keys, and the calculated key is not one |
| Catalog.WebhookConstants | custom_components/e_redes_smart_metering_plus/const.py:3-9 | `WEBHOOK_ID` is the domain and `WEBHOOK_PATH` is `/api/webhook/` followed by it |
| Identifiers.MatchKey | custom_components/e_redes_smart_metering_plus/sensor.py:67-72 | the first-match suffix scan returns a row the remainder ends with (after `_`), and none only when no row's key ends it |
| Identifiers.MatchKeyAt | custom_components/e_redes_smart_metering_plus/sensor.py:67-72 | the scan stops at the first matching row |
| Identifiers.CatalogSuffixUnique | custom_components/e_redes_smart_metering_plus/sensor.py:67-72 | a string ends in `"_" + key` for at most one row, so the scan's result does not depend on table order |
| Identifiers.SensorUniqueIdRoundTrip | custom_components/e_redes_smart_metering_plus/sensor.py:56-75 | for every row and non-empty CPE, parsing `DOMAIN_cpe_key` gives back exactly that (CPE, row) |
| Identifiers.EmptyCpeSensorUniqueIdRejected | custom_components/e_redes_smart_metering_plus/sensor.py:56-75 | for every row, the unique id built with an empty CPE matches that row's key and is then rejected |
| Identifiers.ParseSensorUniqueIdSound | custom_components/e_redes_smart_metering_plus/sensor.py:56-75 | whatever the parse accepts is the unique id of the (CPE, row) it returns, with a non-empty CPE |
| Identifiers.SensorUniqueIdParse | custom_components/e_redes_smart_metering_plus/sensor.py:56-75 | the parse yields (cpe, row) if and only if the id is that sensor's unique id and the CPE is non-empty |
| Identifiers.EntityKeyInjective | custom_components/e_redes_smart_metering_plus/sensor.py:99-100 | two sensors share an entities-dictionary key `cpe_key` only when they share CPE and row |
| Identifiers.UpdateSignalInjective | custom_components/e_redes_smart_metering_plus/sensor.py:189-193 | two sensors listen on the same `DOMAIN_cpe_key_update` signal only when they share CPE and row |
| Identifiers.CpeRoundTrip | custom_components/e_redes_smart_metering_plus/number.py:59-70 | a fixed-suffix id `DOMAIN_cpe<suffix>` parses back to exactly its CPE |
| Identifiers.ParseCpeSound | custom_components/e_redes_smart_metering_plus/binary_sensor.py:57-68 | whatever the fixed-suffix parse accepts is the id built from the CPE it returns |
| Identifiers.LimitUniqueIdParse | custom_components/e_redes_smart_metering_plus/number.py:59-70 | the limit parse yields a CPE if and only if the id is that CPE's `_breaker_limit` unique id |
| Identifiers.OverloadUniqueIdParse | custom_components/e_redes_smart_metering_plus/binary_sensor.py:57-68 | the overload parse yields a CPE if and only if the id is that CPE's `_breaker_overload` unique id |
| Sensors.Apply | custom_components/e_redes_smart_metering_plus/sensor.py:200-220 | a measurement takes every value; a total_increasing sensor takes the first value and equal or larger ones, keeps value and time on a decrease, and never goes down |
| Sensors.ReplayNeverDecreases | custom_components/e_redes_smart_metering_plus/sensor.py:200-220 | over any sequence of updates, a total_increasing sensor's value never decreases once it has one |
| Sensors.MeasurementReplayTakesLast | custom_components/e_redes_smart_metering_plus/sensor.py:200-220 | a measurement sensor ends with the last value and time it was sent |
| Sensors.DecreaseRejectedScenario | tests/test_sensor.py:53-124 | 10000, 10500, 9500, 11000 on an energy counter: 9500 is refused and leaves 10500, and 11000 is taken |
| Sensors.Sensor.constructor | custom_components/e_redes_smart_metering_plus/sensor.py:112-137 | a new sensor keeps its CPE, row and config entry, and has neither value nor last-update time |
| Sensors.Sensor.Configuration | custom_components/e_redes_smart_metering_plus/sensor.py:125-133 | the entity's configuration is its row's, with its key and state class |
| Sensors.Sensor.HandleUpdate | custom_components/e_redes_smart_metering_plus/sensor.py:196-228 | the new (value, last update) is `Apply` of the old one, stamped with the parsed clock or the host's clock |
| Sensors.StashStored | custom_components/e_redes_smart_metering_plus/sensor.py:94-100 | every entry of the dictionary built from a batch of restored sensors is a member of the batch, stored under its own `cpe_key` |
| Sensors.RestoreTargetNone | custom_components/e_redes_smart_metering_plus/sensor.py:47-75 | an entry is skipped exactly when it has the wrong config entry, domain or platform, lacks the prefix, ends in no key, or leaves an empty CPE |
| Sensors.RestoreTargetSome | custom_components/e_redes_smart_metering_plus/sensor.py:47-75 | an entry is restored as (cpe, row) exactly when it is this entry's sensor registration with that sensor's unique id |
| Sensors.RestoredSensorsMembers | custom_components/e_redes_smart_metering_plus/sensor.py:46-96 | a (cpe, row) is restored exactly when some registry entry parses to it |
| Sensors.RestoreRecoversCreated | custom_components/e_redes_smart_metering_plus/sensor.py:46-100 | the registry entries left by any list of created sensors with non-empty CPEs rebuild exactly that list, in order |
| Sensors.EmptyCpeSensorNotRestored | custom_components/e_redes_smart_metering_plus/sensor.py:56-75 | the registry entry of a sensor created for an empty CPE rebuilds nothing |
| Sensors.MatchSensorKey | custom_components/e_redes_smart_metering_plus/sensor.py:64-72 | the suffix loop with `break` computes `MatchKey`, and the CPE is what precedes `_key` |
| Sensors.FindConfig | custom_components/e_redes_smart_metering_plus/sensor.py:77-82 | the configuration loop with `break` computes `FindKey` |
| Sensors.ParseRegistryEntry | custom_components/e_redes_smart_metering_plus/sensor.py:47-85 | the filters and parses applied to one registry entry compute `RestoreTarget` |
| Sensors.EnsureFields | custom_components/e_redes_smart_metering_plus/sensor.py:288-293 | after ensuring, the keys are the old keys plus one `cpe_key` per mapped field; old readings stay and new sensors have no reading |
| Sensors.NewKeysExactly | custom_components/e_redes_smart_metering_plus/sensor.py:252-257 | the keys a pass creates are exactly the listed keys that did not exist before, each once, because an existing key is skipped |
| Sensors.CreatedCallsExactly | custom_components/e_redes_smart_metering_plus/sensor.py:252-271 | once a payload's sensors are ensured, the `add_entities` calls it made are one per sensor key that was missing, each with the one sensor now stored under that key, and none for any other key |
| Sensors.MappedKeysMember | custom_components/e_redes_smart_metering_plus/sensor.py:288-291 | every mapped, non-`cpe` field of a payload gets its sensor key ensured |
| Sensors.CpeIsNotAField | custom_components/e_redes_smart_metering_plus/sensor.py:289 | `cpe` is not a mapped field |
| Sensors.SensorPlatform.constructor | custom_components/e_redes_smart_metering_plus/__init__.py:31-36 | the per-entry data starts with no sensors and no callback |
| Sensors.SensorPlatform.SetupEntry | custom_components/e_redes_smart_metering_plus/sensor.py:22-33 | the callback is stored, the dictionary reset, and it then holds exactly the restored sensors |
| Sensors.SensorPlatform.RestoreEntry | custom_components/e_redes_smart_metering_plus/sensor.py:47-100 | an entry is rebuilt exactly when `RestoreTarget` accepts it, as a fresh empty sensor stored under its key |
| Sensors.SensorPlatform.RestoreInto | custom_components/e_redes_smart_metering_plus/sensor.py:47-100 | one pass of the restore loop extends the batch by the sensor the entry names, if any, keeping it equal to `RestoredSensors` of the entries seen and the dictionary equal to the old one plus the batch |
| Sensors.SensorPlatform.RestoreExisting | custom_components/e_redes_smart_metering_plus/sensor.py:36-106 | the batch is one fresh sensor per matched entry in registry order, each stored under `cpe_key`; the callback is called once with it, and not at all when it is empty |
| Sensors.SensorPlatform.CreateSensor | custom_components/e_redes_smart_metering_plus/sensor.py:252-271 | an existing key changes nothing; otherwise one fresh sensor is added through the callback and stored under its key, or the missing callback raises |
| Sensors.SensorPlatform.CreateSensorForCpe | custom_components/e_redes_smart_metering_plus/sensor.py:234-273 | an unmapped field creates nothing; a mapped one behaves as `CreateSensor` for its row |
| Sensors.SensorPlatform.EnsureFieldAt | custom_components/e_redes_smart_metering_plus/sensor.py:288-291 | one pass of the ensure loop: a missing callback with a missing mapped sensor raises, otherwise the readings become `EnsureFields` of one more member; with the callback set, the `add_entities` log grows by the call for that member's sensor exactly when it creates one |
| Sensors.SensorPlatform.EnsureSensorsForData | custom_components/e_redes_smart_metering_plus/sensor.py:277-293 | it raises exactly when the callback is missing and some mapped field's sensor is missing; otherwise the readings become `EnsureFields` of the old ones. Without a callback the dictionary and the log are unchanged; with one, the keys become the old ones plus the mapped keys, and the log gains exactly one `add_entities([sensor])` per created key, in first-mention order |
| Sensors.SensorPlatform.DeliverUpdate | custom_components/e_redes_smart_metering_plus/sensor.py:187-194 | an update sent to a signal changes exactly the reading of the sensor stored under its key, by `Apply` |
| Numbers.BreakerLimit.constructor | custom_components/e_redes_smart_metering_plus/number.py:141-152 | a new limit holds the default of 20 |
| Numbers.BreakerLimit.AddedToHass | custom_components/e_redes_smart_metering_plus/number.py:171-202 | a usable stored state that parses sets the value, one that does not parse resets it to 20, and no usable state keeps it |
| Numbers.BreakerLimit.SetNativeValue | custom_components/e_redes_smart_metering_plus/number.py:207-211 | setting a value within the bounds 1 to 200 stores exactly that value |
| Numbers.SetLimitOnFirstRun | custom_components/e_redes_smart_metering_plus/number.py:97-126 | on a freshly set up platform, creating a CPE's limit and setting it to a value within bounds gives an entity of that CPE and entry holding that value |
| Numbers.RestoreOnRestart | custom_components/e_redes_smart_metering_plus/number.py:24-94 | on a restart, a registry holding one CPE's limit registration gives back a fresh entity of that CPE at the default 20 |
| Numbers.ReloadKeepsLimit | custom_components/e_redes_smart_metering_plus/number.py:171-211 | a limit set through the setter before a restart is held again by the distinct entity that the restart rebuilds from the first one's registry entry and stored state |
| Numbers.RestoreFallsBackToDefault | custom_components/e_redes_smart_metering_plus/number.py:177-202 | without a usable stored state, or when it does not parse, a new entity holds 20 |
| Numbers.LimitTargetSome | custom_components/e_redes_smart_metering_plus/number.py:51-70 | an entry is restored for a CPE exactly when it is this entry's number registration with that CPE's limit id |
| Numbers.LimitTargetNone | custom_components/e_redes_smart_metering_plus/number.py:51-68 | an entry is skipped exactly when a filter fails or it lacks the prefix or the `_breaker_limit` suffix |
| Numbers.RestoreRecoversLimits | custom_components/e_redes_smart_metering_plus/number.py:51-83 | the registry entries of any list of created limits rebuild exactly those CPEs, in order |
| Numbers.NumberPlatform.constructor | custom_components/e_redes_smart_metering_plus/__init__.py:31-36 | the per-entry data has no number callback and no limits |
| Numbers.NumberPlatform.SetupEntry | custom_components/e_redes_smart_metering_plus/number.py:24-38 | the first setup stores the callback and starts an empty dictionary; a repeat setup keeps both and restores on top |
| Numbers.NumberPlatform.RestoreEntry | custom_components/e_redes_smart_metering_plus/number.py:51-83 | an entry is rebuilt exactly when `LimitTarget` accepts it, as a fresh default limit stored under its CPE |
| Numbers.NumberPlatform.RestoreExisting | custom_components/e_redes_smart_metering_plus/number.py:41-93 | one fresh default limit per matched entry in order, each stored under its CPE; the callback is called once with the batch, and not when it is empty |
| Numbers.NumberPlatform.CreateBreakerLimit | custom_components/e_redes_smart_metering_plus/number.py:96-125 | an existing CPE or a missing callback changes nothing; otherwise one fresh limit of 20 is added and stored under the CPE |
| BinarySensors.OverloadSensor.constructor | custom_components/e_redes_smart_metering_plus/binary_sensor.py:131-144 | a new overload sensor is off |
| BinarySensors.OverloadSensor.CheckOverload | custom_components/e_redes_smart_metering_plus/binary_sensor.py:188-221 | on exactly when a load is known and strictly above 100; off when the load sensor is missing, has no value or does not convert |
| BinarySensors.OverloadTargetSome | custom_components/e_redes_smart_metering_plus/binary_sensor.py:49-68 | an entry is restored for a CPE exactly when it is this entry's binary-sensor registration with that CPE's overload id |
| BinarySensors.OverloadTargetNone | custom_components/e_redes_smart_metering_plus/binary_sensor.py:49-66 | an entry is skipped exactly when a filter fails or it lacks the prefix or the `_breaker_overload` suffix |
| BinarySensors.RestoreRecoversOverloads | custom_components/e_redes_smart_metering_plus/binary_sensor.py:49-81 | the registry entries of any list of created overload sensors rebuild exactly those CPEs, in order |
| BinarySensors.BinarySensorPlatform.constructor | custom_components/e_redes_smart_metering_plus/__init__.py:31-36 | the per-entry data has no binary-sensor callback and no sensors |
| BinarySensors.BinarySensorPlatform.SetupEntry | custom_components/e_redes_smart_metering_plus/binary_sensor.py:23-36 | the callback is stored, the dictionary reset, and it then holds exactly the restored sensors |
| BinarySensors.BinarySensorPlatform.RestoreEntry | custom_components/e_redes_smart_metering_plus/binary_sensor.py:49-81 | an entry is rebuilt exactly when `OverloadTarget` accepts it, as a fresh sensor that is off, stored under its CPE |
| BinarySensors.BinarySensorPlatform.RestoreExisting | custom_components/e_redes_smart_metering_plus/binary_sensor.py:39-89 | one fresh off sensor per matched entry in order, each stored under its CPE; the callback is called once with the batch, and not when it is empty |
| BinarySensors.BinarySensorPlatform.CreateOverloadSensor | custom_components/e_redes_smart_metering_plus/binary_sensor.py:92-121 | an existing CPE or a missing callback changes nothing; otherwise one fresh off sensor is added and stored under the CPE |
| Webhook.MappedFields | custom_components/e_redes_smart_metering_plus/webhook.py:165-170 | every member the send loop acts on has a mapped name other than `cpe` |
| Webhook.MappedFieldsMembers | custom_components/e_redes_smart_metering_plus/webhook.py:165-170 | the members the send loop acts on are exactly the payload members whose name is mapped and not `cpe` |
| Webhook.DispatchesOnePerField | custom_components/e_redes_smart_metering_plus/webhook.py:165-178 | exactly one dispatch per mapped member, in order, carrying the member's value and the payload's `clock`, to `DOMAIN_cpe_key_update`; none for other members |
| Webhook.Ingest | custom_components/e_redes_smart_metering_plus/webhook.py:165-178 | delivering a payload's updates creates and removes no sensor |
| Webhook.DispatchedSensorsExist | custom_components/e_redes_smart_metering_plus/webhook.py:161-175 | once the sensors of a payload are ensured, every mapped member's sensor exists |
| Webhook.DispatchesReachSensors | custom_components/e_redes_smart_metering_plus/webhook.py:161-178 | every dispatch goes to the signal of a sensor that exists when it is sent |
| Webhook.FeedKeyInjective | custom_components/e_redes_smart_metering_plus/webhook.py:169-175 | two mapped member names feed the same entity key only if they are the same name |
| Webhook.ApplyAllLastWrite | custom_components/e_redes_smart_metering_plus/webhook.py:165-178 | of a list of updates, the last write to an existing measurement sensor decides its reading |
| Webhook.IngestLastWrite | custom_components/e_redes_smart_metering_plus/webhook.py:165-178 | the last member carrying a measurement field decides that field's sensor: its value, stamped with the update time |
| Webhook.WebhookHoldsMeasurement | custom_components/e_redes_smart_metering_plus/webhook.py:157-178 | end to end, after a payload carrying a measurement member, the sensor `cpe_key` exists and holds the posted value |
| Webhook.Hass.constructor | custom_components/e_redes_smart_metering_plus/__init__.py:31-36 | the per-entry data starts with empty dictionaries and no callbacks |
| Webhook.Hass.EnsureDevice | custom_components/e_redes_smart_metering_plus/webhook.py:125-154 | the device is registered; only when it was absent are the limit and overload entities created (each a no-op without its callback); a known CPE changes nothing; a created limit holds 20 and a created overload sensor is off, and nothing else in either dictionary changes |
| Webhook.Hass.SendField | custom_components/e_redes_smart_metering_plus/webhook.py:165-187 | a `cpe` or unmapped member sends nothing; a mapped one sends one dispatch and updates its sensor by `Apply` |
| Webhook.Hass.SendUpdates | custom_components/e_redes_smart_metering_plus/webhook.py:164-187 | the sends are `Dispatches` of the payload and the readings become `Ingest` of the ensured ones |
| Webhook.Hass.ProcessSensorData | custom_components/e_redes_smart_metering_plus/webhook.py:157-190 | sensors are ensured before anything is sent; when ensuring raises nothing is sent and no sensor or reading changes, otherwise every mapped member is delivered; the sensor `add_entities` log is as `EnsureSensorsForData` states |
| Webhook.Hass.HandlePayload | custom_components/e_redes_smart_metering_plus/webhook.py:101-120 | the device is registered, with its limit and overload entities created exactly as `EnsureDevice` states; the answer is 200 "OK" exactly when the sensors could be ensured, with every mapped member delivered, and otherwise the 500 with nothing sent and no sensor or reading changed; the sensor `add_entities` log is as `EnsureSensorsForData` states |
| Webhook.Hass.HandleWebhook | custom_components/e_redes_smart_metering_plus/webhook.py:86-122 | invalid JSON gives 400 "Invalid JSON" and a missing `cpe` gives 400 "Missing 'cpe' field", both leaving every field of the host and its three platforms unchanged; otherwise the device is ensured exactly as `EnsureDevice` states, then the data processed, giving 200 "OK", or a 500 with no sensor or reading changed when the sensor callback is missing; on both the sensor `add_entities` log is as `EnsureSensorsForData` states |
| Webhook.EmptyCpeRestoresOnlyDeviceEntities | custom_components/e_redes_smart_metering_plus/webhook.py:97-106 | for a payload with an empty `cpe`, which the webhook accepts, a restart rebuilds the limit and the overload entity but not the sensor |

## Left out

- Calculated sensors: `async_ensure_calculated_sensors`, which the webhook imports and calls after the sends, is not defined in the integration's sensor module, so the model treats it as a hook that does nothing. The calculated-current formula, the breaker-load percentage and the diagnostic sensors are not modelled. `CALCULATED_SENSORS` is kept as a table only.
- BinarySensors.OverloadSensor.CheckOverload: it takes the breaker-load lookup as an abstract `BreakerLoad` value (missing sensor, no value, unconvertible, or a percentage), because the sensor that would supply it is one of the calculated sensors.
- `_handle_breaker_load_update` only runs the overload check and writes the state. The delayed initial check (`asyncio.sleep`) is asynchronous timing. Neither is modelled beyond `CheckOverload`.
- Webhook setup and unload (cloudhook creation, URL generation, registration with the host) are host and network plumbing.
- The config flow, options flow, text and diagnostics platforms and the helper scripts are UI, configuration and reporting. The integration's own `async_setup_entry` is modelled only for the per-entry dictionary it creates. The fact that it forwards only the sensor platform is why the platforms' callbacks start as None.
- `async_write_ha_state`, logging, `device_info`, `extra_state_attributes` and entity names and icons are presentation. `Config` keeps the catalog's names, units, device classes and icons as data only.
- JSON decoding, `float(...)` conversions and `datetime.fromisoformat`/`datetime.now` are library calls. They appear as `Option` parameters or plain values. Member values are `real`, so a non-numeric member value, or a posted value that is not a number, is not modelled. Nor is floating-point rounding.
- A body that is valid JSON but not an object, and a `cpe` or `clock` that is not a string, are not modelled. `Body` holds a string `cpe` (or none) and numeric members. Any other exception on the webhook path is not modelled either; only the missing sensor callback gives a 500.
- Webhook.Hass.HandleWebhook: one `parsed`/`now` pair serves every update of a request. The source reads the host clock once per delivered update.
- Sensors.SensorPlatform.DeliverUpdate: delivery through the dispatcher is idealised. The update reaches the sensor stored under the signal's `cpe_key`, which is the sensor that subscribed when it was added. A sensor created by the same request is taken to be subscribed before the first send. In the source, `add_entities` only schedules the addition, so whether the request's own updates reach a new sensor depends on the host's scheduling. Subscription and unsubscription are not modelled.
- Webhook.Hass.EnsureDevice: the device registry is reduced to the set of CPEs registered by the webhook. Devices that the host creates from an entity's `device_info` when the entity is added are not part of that set.
- Numbers.BreakerLimit.SetNativeValue: the step of 1 is not enforced. Only the bounds 1 to 200 are, as a precondition, which is what the host's number service checks before calling it.
- Numbers.ReloadKeepsLimit: the host's writing of the stored state and `float` reading it back are taken to round-trip. The scenario hands the restored entity the set value as what `float` gives for the stored state.
- Concurrency between webhook requests and the platform setups is not modelled. Every operation runs to completion.
