# MQTT discovery bridge: sensor registry and message routing

This project models the core of a small MQTT bridge, `func.py`. The bridge
listens for pipe-delimited readings `device|sensor|value` on configured
reading topics. The first time it sees a `(device id, sensor name)` pair it
announces that sensor to a home-automation hub: it publishes a discovery
payload under `homeassistant/{kind}/{device}/{sensor}/config`. After that it
republishes availability and state on every reading. It relays commands the
hub sends on `homeassistant/{switch|select|number}/{device}/{sensor}/set` back
to the device's own command topic. A periodic sweep marks sensors offline and
drops them from the registry once they have been silent for longer than the
timeout.

The model is written in Dafny, one module per concern:

- `Options`: Python's `None`-or-value fields.
- `Strings`: `str.split`, `str.join`, ASCII `str.lower` and the "flat name"
  of a device or sensor, with the round-trip lemmas between them.
- `Kinds`: sensor types, Python truthiness of their optional fields, and
  the two entity-kind classifiers of the source (discovery and state publish).
- `Topics`: topic strings, the structured payloads, the discovery payload,
  and the subscriptions made on connect.
- `Sensors`: the `Sensor` class (value, `configured` flag and last-update
  stamp change in place), the messages about a sensor, and the registry key
  invariant.
- `Routing`: what the command branch relays, as a function of the registry.
- `Liveness`: one tick of the sweep over the list as Python's list iterator
  walks it, and a snapshot-based sweep to compare it with.
- `Bridge`: the `SensorWorker` class. `sensors` is its registry. `outbox`
  records every `publish`, `subscriptions` every `subscribe`, and `log` every
  value-change line of `Sensor.update`.

Time is a whole number of seconds passed in as `now`. The offline timeout
is passed in as `onlineTimeout`, in minutes; it is multiplied by 60 as the
source does.

Two details of the source shape what is proved:

- The command loop (func.py:148-155) has no `break`, so every sensor that
  owns the topic relays the command. `Routing.CommandRelaysAreRouted`
  states this.
- The state classifier's select test (func.py:226) lacks the `not min` of
  func.py:188. `Kinds.StateKind` states where the two kinds differ, and
  `Sensors.StateTopicAgreesWithDiscovery` shows the consequence: the state
  publish reaches the state topic the discovery payload announces exactly
  when the two kinds agree.

## Model

| member | source | states |
|---|---|---|
| Kinds.FromConfig | main.py:9-19 | every field is copied from the configuration entry; a missing `step` key becomes 1, and a present one keeps its value, `None` included |
| Kinds.StrTruthy | func.py:150-155 | Python truthiness of an optional string (`if command_topic`): present and non-empty; `Kinds.DiscoveryKind` and `Routing.DiscoveredCommandTopicRoutes` state its role |
| Kinds.ListTruthy | func.py:180-192 | Python truthiness of optional options (`if options`, `not options`): present and non-empty; `Kinds.DiscoveryKind` and `Kinds.StateKind` state its role |
| Kinds.IntTruthy | func.py:180-199 | Python truthiness of an optional min, max or step: present and non-zero; `Kinds.DiscoveryKind` and `Kinds.DefaultStepGivesNumber` state its role |
| Kinds.DefaultStepGivesNumber | main.py:18 | a type with truthy min and max and no `step` key is a number for both discovery and the state publish |
| Kinds.ExplicitNoStepIsNotNumber | main.py:18 | with an explicit `"step": None` the same type is a plain sensor for discovery, and for the state publish unless it has options |
| Kinds.SwitchCondition | func.py:180 | the switch test; `Kinds.DiscoveryKind` and `Kinds.DiscoveryConditionsExclusive` state its role |
| Kinds.DiscoverySelectCondition | func.py:188 | the select test of discovery; `Kinds.DiscoveryKind` and `Kinds.StateKind` state its role |
| Kinds.StateSelectCondition | func.py:226 | the select test of the state publish, without `not min`; `Kinds.StateKind` states how it differs |
| Kinds.NumberCondition | func.py:193 | the number test, shared by func.py:228; `Kinds.DiscoveryKind` states its role |
| Kinds.DiscoveryConditionsExclusive | func.py:180-199 | the switch, select and number tests of discovery never hold two at a time |
| Kinds.DiscoveryKind | func.py:161-199 | the discovery kind is switch, select or number exactly when that kind's own truthiness test holds, and plain sensor exactly when none does |
| Kinds.StateKind | func.py:223-229 | the state kind equals the discovery kind unless options and min are truthy while max or step is falsy; then discovery says sensor and state says select; truthy options always give select or number |
| Kinds.KindName | func.py:161-199 | every kind name is six characters long |
| Kinds.KindNameInjective | func.py:161-199 | distinct kinds have distinct topic names |
| Kinds.TypeIndex | func.py:123-129 | the lookup stops at the first type whose topic matches; with no match it stops at the last type |
| Kinds.ResolveType | func.py:123-129 | the resolved type is one of the configured types; it has the message topic when any type does; otherwise it is the last type |
| Strings.Split | func.py:116 | `split` yields one piece more than there are separators, and no piece holds a separator |
| Strings.Join | func.py:45-46 | Python's `sep.join`; `Strings.JoinSplit` and `Strings.SplitJoin` are its round trips with `Split` |
| Strings.Replace | func.py:45-46 | the result has the input's length, with each occurrence of the old character replaced |
| Strings.Lower | func.py:45-46 | lower-casing keeps the length and maps each character on its own |
| Strings.LowerChar | func.py:45-46 | `str.lower` on one character, ASCII letters only; `Strings.Lower` and `Strings.FlatName` state it pointwise and `Strings.FlatNameIdempotent` builds on it |
| Strings.JoinSplitIsReplace | func.py:45-46 | joining the pieces of a split with a character replaces every separator by that character |
| Strings.JoinSplit | func.py:116 | joining a split with its own separator gives back the string |
| Strings.SplitJoin | func.py:116-122 | splitting a join gives back the parts when no part holds the separator, so a reading's fields come back as they were sent |
| Strings.FlatName | func.py:45-46 | the flat name has the name's length, holds no space, and is the name lower-cased with each space made `_` |
| Strings.FlatNameIdempotent | func.py:45-46 | flattening a flat name changes nothing |
| Topics.EntityTopicDeterminesKind | func.py:150-154 | two equal entity topics have the same kind |
| Topics.EntityTopic | func.py:165 | the entity topic `homeassistant/{kind}/{device}/{sensor}/{leaf}` of the state, command and config topics (func.py:165, 182-183, 191-192, 195-196, 200, 231) and of the routing tests (func.py:150-154); `Topics.EntityTopicDeterminesKind` and `Topics.WildcardMatchesEntityTopic` state its properties |
| Topics.AvailabilityTopic | func.py:170 | the availability topic of func.py:170, 210 and 230; `Sensors.AvailabilityAgreesWithDiscovery` states that all three agree |
| Topics.FieldName | func.py:162-199 | the JSON key each discovery field is written as |
| Topics.FieldNameInjective | func.py:162-199 | distinct discovery fields are written as distinct JSON keys |
| Topics.BasePayload | func.py:162-179 | the fields every discovery payload starts from; `Topics.BasePayloadKeys` gives its keys |
| Topics.SwitchFields | func.py:181-187 | the switch fields; `Topics.SwitchFieldsShape` states the result |
| Topics.SelectFields | func.py:189-192 | the select fields; `Topics.SelectFieldsShape` states the result |
| Topics.NumberFields | func.py:194-199 | the number fields; `Topics.NumberFieldsShape` states the result |
| Topics.DiscoveryPayload | func.py:162-199 | the base payload with each kind test that holds applied in source order; `Topics.DiscoveryPayloadShape` states what it holds |
| Topics.BasePayloadKeys | func.py:162-179 | the base discovery payload has exactly the base keys |
| Topics.SwitchFieldsShape | func.py:180-187 | a switch payload has the base keys plus its own; state and command topics are under "switch"; the other base fields are untouched; on/off values are set |
| Topics.SelectFieldsShape | func.py:188-192 | a select payload has the base keys plus command topic and options; its topics are under "select"; the options are the type's own |
| Topics.NumberFieldsShape | func.py:193-199 | a number payload has the base keys plus command topic, min, max and step; its topics are under "number"; the bounds are the type's own |
| Topics.DiscoveryPayloadShape | func.py:162-200 | the discovery payload holds exactly the base keys and the discovery kind's keys; its state topic is under that kind; a `.../set` command topic is present iff the kind is not plain sensor; the kind's own fields are present; all other base fields are as built |
| Topics.TypeSubscriptions | func.py:236-242 | the subscriptions of one type; `Topics.SubscriptionsCoverTypes` states what they cover |
| Topics.SubscriptionTopics | func.py:233-242 | the subscriptions of all types in type order; `Topics.SubscriptionsCoverTypes` and `Topics.CommandTopicsSubscribed` state what they cover |
| Topics.WildcardMatchesEntityTopic | func.py:238-242 | a kind's `#` wildcard matches every entity topic of that kind |
| Topics.Wildcard | func.py:238-242 | the hub wildcards `homeassistant/{kind}/#`; `Topics.WildcardMatchesEntityTopic` and `Topics.CommandTopicsSubscribed` state what they match |
| Topics.SubscriptionsCoverTypes | func.py:233-242 | every configured type's reading topic is subscribed to, and so is the wildcard of its discovery kind when that kind has a command topic |
| Topics.CommandTopicsSubscribed | func.py:233-242 | the hub's command topic for every discovered switch, select or number is matched by some subscription |
| Sensors.ChangeEvent | func.py:50-51 | an update logs a change event exactly when the new value differs from the old one, and the event carries both values |
| Sensors.Sensor.constructor | func.py:39-47 | the sensor holds the given fields and flat names for its id and name; its stamp is unset |
| Sensors.Sensor.Update | func.py:49-53 | the value is replaced and the stamp set to `now`; the event is the change event from the old value to the new one |
| Sensors.Named | func.py:45-46 | a sensor's flat names are those of its own id and name; the registry invariant keeps it for every sensor |
| Sensors.AllNamedAppend | func.py:202 | appending a named sensor keeps every registered sensor named |
| Sensors.AllNamedRemove | func.py:212 | removing a sensor keeps every registered sensor named |
| Sensors.ConfigMessage | func.py:200 | the discovery publish on the `config` topic of the discovery kind; `Topics.DiscoveryPayloadShape` states its payload |
| Sensors.OnlineMessage | func.py:230 | the "online" publish; `Sensors.AvailabilityAgreesWithDiscovery` ties it to the discovery payload |
| Sensors.OfflineMessage | func.py:210 | the "offline" publish; `Sensors.AvailabilityAgreesWithDiscovery` ties it to the discovery payload |
| Sensors.StateMessage | func.py:220-231 | the single-key state publish on the state-kind topic; `Sensors.StateTopicAgreesWithDiscovery` and `Sensors.StateMatchesValueTemplate` tie it to the discovery payload |
| Sensors.RelayMessage | func.py:151 | the relayed command; `Sensors.RelayPayloadSplits` gives its round trip |
| Sensors.AvailabilityAgreesWithDiscovery | func.py:170-172 | "online" and "offline" go to the availability topic the discovery payload announces, with the payloads it names for available and not available |
| Sensors.StateTopicAgreesWithDiscovery | func.py:182-231 | the state publish goes to the state topic the discovery payload announces iff the state kind equals the discovery kind |
| Sensors.StateMatchesValueTemplate | func.py:167 | the state payload's only key is the one the value template reads, and it holds the published value |
| Sensors.RelayPayloadSplits | func.py:151 | with no `|` in id, name and data, splitting a relayed command gives back exactly id, name and data |
| Sensors.OfflineMessagesEach | func.py:75 | there is one offline message per removed sensor, in removal order |
| Sensors.Lookup | func.py:131-137 | the lookup yields no position exactly when no sensor has the key; it otherwise yields the first sensor with the key |
| Sensors.Sensor.Key | func.py:134 | the pair `(device id, sensor name)` the lookup compares; `Sensors.Lookup` and `Sensors.UniqueKeysDistinct` state how the registry uses it |
| Sensors.IndexOf | func.py:212 | `list.remove` takes out the first occurrence of the sensor |
| Sensors.UniqueIndex | func.py:131-137 | in a registry with unique keys, each sensor is found by its own key at its own position, and the sensor occurs nowhere else |
| Sensors.UniqueKeysAppend | func.py:202 | appending a sensor whose key is not registered keeps the keys unique |
| Sensors.UniqueKeysRemove | func.py:212 | removing a sensor keeps the keys unique |
| Sensors.UniqueKeysDistinct | func.py:131-141 | the registry invariant, stated as it grows, is exactly pairwise distinct keys |
| Sensors.RemoveBetween | func.py:212 | in a registry with unique keys, `list.remove` of a sensor standing between two runs leaves those two runs joined |
| Routing.SensorRelays | func.py:150-155 | what the three tests publish for one sensor; `Routing.SensorRelaysAtMostOnce` states it is at most one relay |
| Routing.ShapeMatches | func.py:150-155 | one of the three command-topic tests; `Routing.SensorRelaysAtMostOnce` states that at most one holds |
| Routing.RoutesTo | func.py:150-155 | the sensor owns the topic under one of the three shapes and has a command topic; `Routing.SensorRelaysAtMostOnce` and `Routing.CommandRelaysAreRouted` state what it decides |
| Routing.CommandRelays | func.py:148-155 | what the command loop publishes over the registry; `Routing.CommandRelaysAreRouted` states it |
| Routing.SensorRelaysAtMostOnce | func.py:150-155 | of the three tests for one sensor at most one holds; the sensor relays the command once if it owns the topic and has a command topic, otherwise not at all |
| Routing.Routed | func.py:148-155 | the owning sensors are exactly the registry's sensors that route the topic |
| Routing.CommandRelaysAreRouted | func.py:147-155 | the command branch relays the command exactly once, to its own command topic, for every owning sensor, in registry order, and publishes nothing else |
| Routing.NoOwnerNoRelay | func.py:147-155 | a command no sensor owns publishes nothing |
| Routing.DiscoveredCommandTopicRoutes | func.py:183-196 | the command topic a discovery payload announces is routed to the sensor iff its type has a truthy command topic |
| Routing.CommandForKeyRelays | func.py:150-155 | a command on the `set` topic built from a named sensor's own id and name is relayed once by it, when it has a command topic |
| Liveness.Stale | func.py:73-74 | the staleness test; `Liveness.StaleAt` states it over the registry |
| Liveness.Sweep | func.py:71-75 | the iterator's walk over the shrinking list; `Liveness.SweepIsView` states it |
| Liveness.SweepView | func.py:71-75 | the same tick on the original list; `Liveness.SweepPartitions`, `Liveness.SweepRemovesOnlyStale`, `Liveness.FreshSensorsKept` and `Liveness.SweepKeepsOrder` state its properties |
| Liveness.StaleAt | func.py:73-74 | a sensor is stale iff its stamp is set and strictly more than `timeout` seconds old |
| Liveness.SweepIsView | func.py:71-75 | the list iterator's walk over the shrinking list equals the sweep as seen on the original list |
| Liveness.SweepPartitions | func.py:71-75 | every sensor of a tick is either kept or removed, exactly once |
| Liveness.SweepRemovesOnlyStale | func.py:73-75 | every removed sensor was stale |
| Liveness.FreshSensorsKept | func.py:73-75 | a sensor with no stamp, or one updated within the timeout, is kept |
| Liveness.SweepKeepsOrder | func.py:71-75 | survivors keep their relative order, and so do removed sensors |
| Liveness.StaleNeighbourSurvives | func.py:71-75 | of two adjacent stale sensors the first is removed and the second survives the tick |
| Liveness.NotStaleFresh | func.py:71-75 | after the snapshot sweep every survivor is a registered sensor that is not stale |
| Liveness.StaleOnesStale | func.py:71-75 | after the snapshot sweep every removed sensor is a registered sensor that is stale |
| Liveness.FiltersPartition | func.py:71-75 | the snapshot sweep puts every sensor in exactly one of survivors and removed |
| Bridge.SensorWorker.constructor | func.py:58-64 | a worker starts with an empty, valid registry and nothing published or subscribed; valid means unique keys, every sensor configured and named |
| Bridge.SensorWorker.FindSensorType | func.py:123-129 | the type loop yields no type only for an empty type list; otherwise it yields the resolved type |
| Bridge.SensorWorker.FindSensor | func.py:131-137 | the sensor loop yields the sensor at the lookup position, or nothing when the key is not registered |
| Bridge.SensorWorker.UpdateSensor | func.py:217-231 | the stamp becomes `now`, then exactly "online" on the availability topic and the single-key state on the state-kind topic are published, in that order |
| Bridge.SensorWorker.Enroll | func.py:200-202 | one discovery message is published, the sensor is marked configured and appended, and the registry stays valid |
| Bridge.SensorWorker.ConfigureSensor | func.py:159-205 | an unseen sensor is appended and configured; exactly config, online and state are published, in that order; it is stamped with `now`; re-applying its own value logs nothing |
| Bridge.SensorWorker.SensorOffline | func.py:208-213 | "offline" is published once, then the sensor is removed from where `list.remove` finds it; keys stay unique |
| Bridge.SensorWorker.VisitAt | func.py:72-75 | one loop step at iterator position `i`: a stale sensor there is published offline and taken out of position `i`, otherwise the registry is unchanged; the iterator moves on by one over the list as it now is |
| Bridge.SensorWorker.SweepTick | func.py:67-76 | one tick leaves exactly the survivors of the iterator's walk; every removed sensor gets one offline publish, in removal order |
| Bridge.SensorWorker.DropIfStale | func.py:72-75 | one snapshot step removes the sensor and publishes it offline iff it is stale |
| Bridge.SensorWorker.SweepTickIntended | func.py:67-76 | the corrected tick leaves exactly the sensors that are not stale, in order, and publishes one offline message per stale sensor, in registry order |
| Bridge.SensorWorker.RelayToSensor | func.py:150-155 | the three tests of one sensor publish what `SensorRelays` says |
| Bridge.SensorWorker.RouteCommand | func.py:147-155 | the command loop publishes exactly `CommandRelays` of the registry |
| Bridge.SensorWorker.OnMessage | func.py:112-155 | a reading for an unseen key appends one fresh configured sensor with the reading's fields, flat names of its id and name, and resolved type, and publishes config, online and state; a reading for a known key updates that sensor alone, leaves the registry, and publishes online and state; any other payload publishes exactly the command relays and changes no sensor; the registry stays valid |
| Bridge.SensorWorker.HandleReading | func.py:119-146 | the reading branch for the first three fields, with the same two outcomes as in `OnMessage`, flat names of the new sensor included |
| Bridge.SensorWorker.RegisterReading | func.py:139-141 | a fresh sensor with the reading's fields, the flat names of its id and name, and the resolved type is configured and appended behind the old registry |
| Bridge.SensorWorker.UpdateReading | func.py:144-146 | a registered sensor gets the new value and stamp; a change event is logged iff the value changed; online and state are published |
| Bridge.SensorWorker.Subscribe | func.py:233-242 | the topics subscribed to are `SubscriptionTopics` of the types, in type order |
| Bridge.SensorWorker.SubscribeType | func.py:236-242 | for one type: its reading topic, then the switch, select and number wildcards its fields ask for |

## Left out

- MQTT transport: `connect`, `reconnect`, `loop_forever`, `on_connect` and
  `on_disconnect` (func.py:83-110) are network I/O with an unbounded retry
  loop. `publish` and `subscribe` are appends to `outbox` and
  `subscriptions`.
- Threads and the perpetual loop: `start` (func.py:78-80), `while True`
  and `sleep(10)` (func.py:70, 76). One tick is modelled, run sequentially.
  Concurrent access to the registry from the sweep thread is not modelled.
- Clock and environment: `datetime.now()` is the `now` argument in whole
  seconds, and `total_seconds()` is an integer difference.
  `os.getenv("ONLINE_TIMEOUT", 1)` is the `onlineTimeout` argument, so
  its default of 1 minute is the caller's choice.
- Logging: the file handler and formatter (func.py:16-22) are left out. So
  are the "configured", "offline", "connected", "disconnected" and
  "subscribed" info lines. Only the value-change line of `Sensor.update` is
  kept, as the `log` sequence.
- JSON serialisation: `json.dumps` (func.py:200, 231) is a library call.
  Payloads are maps. Discovery keys are an enumeration, whose JSON spellings
  `Topics.FieldName` gives. Key order and byte layout are not modelled.
- Payload decoding: `msg.payload.decode()` (func.py:115) is taken as given.
  The payload is a string already.
- `Strings.Lower`: lower-cases ASCII letters only. Python's full Unicode case
  mapping is not modelled.
- Numbers: `min`, `max` and `step` are integers, with 0 falsy. Float values
  from the configuration are not modelled.
- Kinds.FromConfig: `name`, `topic`, `unit_of_measurement` and
  `device_class` are read with `[]` (main.py:10-13) and could hold `None`;
  the model types them as strings, so the `null` that `json.dumps` writes
  for such a field (func.py:163, 166, 176) is not modelled.
- main.py: only the construction of a sensor type (main.py:9-19) is
  modelled, with its default `step` of 1. Configuration loading and client
  creation are left out.
- Bridge.SensorWorker.OnMessage: a reading for an unseen key with an empty
  type list is excluded by a precondition. There the source builds a `Sensor`
  with type `None` and fails on an attribute of that type in
  `configure_sensor`. Command payloads and readings for known keys have no
  such precondition.
- Bridge.SensorWorker.SensorOffline: requires the sensor to be registered.
  In the source `list.remove` raises for an absent sensor. The sweep only
  passes registered sensors.
- Topic filters: `FilterMatches` covers only exact topics and the hub
  wildcards `homeassistant/{kind}/#` that `Topics.CommandTopicsSubscribed`
  uses. A configured reading topic may itself hold `+` or `#`, which is not
  modelled, and neither is MQTT's rule that `a/#` also matches `a`.

## Findings

| source | as written | input that shows it | evidently intended | confidence | as-written member | corrected member |
|---|---|---|---|---|---|---|
| func.py:71-75 | the sweep removes stale sensors from `self.sensors` while iterating over that same list, so the list iterator steps over the sensor that slides into each removed place | two adjacent stale sensors `[a, b]`: `a` is published offline and removed, `b` is never looked at and stays registered and online until a later tick | every stale sensor is published offline and removed in the tick that finds it stale | not executed | Liveness.StaleNeighbourSurvives | Bridge.SensorWorker.SweepTickIntended |
