# MQTT binding of the JSON IoT agent, modelled in Dafny

This project models the MQTT binding of the JSON IoT agent
(`lib/bindings/MQTTBinding.js`): the topic scheme (the four global wildcard
subscriptions and the per-device configuration-values and command topics),
the removal of the logical-device suffix `.L<n>` from device ids, the
connection options built by `start` and the publish options built for
configuration pushes and commands, and the order of calls the binding makes
on the MQTT client, the alarm subsystem and its caller's callback in
`start`, `stop`, `unsubscribeAll`, `sendConfigurationToDevice` and
`executeCommand`.

Modules, one per component:

- `Wrappers` — `Option`, for publish options that are present or left out.
- `Strings` — JavaScript `indexOf`, `split` (one-character separator) and `join` over `seq<char>`, with the split/join round trip.
- `JsValues` — configuration values as JavaScript values, with truthiness and the loose `!= null` test written out.
- `Topics` — the suffix constants (kept abstract as a record parameter), `generateTopics`, the two per-device topics, and single-level `+` matching of topic filters as in section 4.7.1.3 of MQTT 3.1.1, used to state what the subscriptions receive.
- `DeviceIds` — `removeLogicalSuffix`.
- `Options` — the `mqtt` configuration section, connection options and publish options.
- `MqttBinding` — the operations as effect traces: each returns the ordered list of client, alarm and callback calls it makes, given the outcomes the client reports.

Notes on what the code does:

- The fourth global topic is `'/+/+/' + CONFIGURATION_COMMAND_UPDATE`, wildcarded like the other three.
- `stop` before `start` has created the client throws a `TypeError`, because `mqttClient.end` is read at `lib/bindings/MQTTBinding.js:163` while `mqttClient` is still undefined. `MqttBinding.Stop` yields only `Fault` in that case: no unsubscribe, no close, no callback. `publish` at lines 100 and 205 fails the same way, so `MqttBinding.SendConfigurationToDevice` and `MqttBinding.ExecuteCommand` also yield only `Fault` before the client exists.
- The binding keeps no connection state. Every 'connect' event, including each reconnection, runs one more subscription round and calls the `start` callback again. `MqttBinding.Start` therefore takes one subscribe outcome per 'connect' event.
- `retain` is tested with `=== true` for configuration pushes and with truthiness for commands. Both tests are kept, and `Options.RetainAsymmetry` states where they differ.

## Model

| member | source | states |
|---|---|---|
| Strings.IndexOf | lib/bindings/MQTTBinding.js:177 | -1 exactly when the marker does not occur; otherwise an occurrence with no earlier one (indices counted in characters) |
| JsValues.NullishIsFalsy | lib/bindings/MQTTBinding.js:128-135 | the `!= null` test used for connection options here and the truthiness test used for publish options (lines 92, 196 and 199) differ exactly on `false`, `0` and `""` |
| Topics.GenerateTopics | lib/bindings/MQTTBinding.js:41-51 | always exactly four topics, each beginning with `/+/+/` |
| Topics.GlobalTopicSegments | lib/bindings/MQTTBinding.js:45-48 | the four topics, in order, split into measures-with-subtopic, measures, configuration-command and command-update filters, all wildcarded on API key and device id |
| Topics.GlobalTopicsCoverAllDevices | lib/bindings/MQTTBinding.js:45-48 | each global subscription receives its message class from every device under every API key |
| Topics.CommandTopic | lib/bindings/MQTTBinding.js:205 | the topic `'/' + apiKey + '/' + deviceId + '/cmd'`; with no `/` in API key and device id it splits into exactly `["", apiKey, deviceId, "cmd"]` |
| Topics.CommandTopicInjective | lib/bindings/MQTTBinding.js:205 | two command topics are equal iff their API keys and device ids are |
| Topics.ConfigValuesTopic | lib/bindings/MQTTBinding.js:100-102 | the topic `'/' + apiKey + '/' + deviceId + '/' + CONFIGURATION_SUFIX + '/' + CONFIGURATION_VALUES_SUFIX`; with no `/` in any part it splits into `["", apiKey, deviceId, CONFIGURATION_SUFIX, CONFIGURATION_VALUES_SUFIX]` |
| Topics.ConfigValuesTopicInjective | lib/bindings/MQTTBinding.js:100-102 | two configuration-values topics are equal iff their API keys and device ids are |
| Topics.CommandTopicHeardIff | lib/bindings/MQTTBinding.js:203-205 | the binding's own subscriptions receive a command it publishes iff the measures or command-update suffix matches `cmd` |
| Topics.ConfigValuesTopicHeardIff | lib/bindings/MQTTBinding.js:100-103 | the binding's own subscriptions receive a configuration push iff the measures suffix matches the configuration suffix or the configuration-command suffix matches the values suffix |
| DeviceIds.RemoveLogicalSuffix | lib/bindings/MQTTBinding.js:176-184 | unchanged when `.L` does not occur; otherwise cut at the first `.L`; always a prefix of the id with no `.L` left in it |
| DeviceIds.RemoveLogicalSuffixIdempotent | lib/bindings/MQTTBinding.js:176-184 | stripping twice gives the same result as stripping once |
| DeviceIds.RemoveLogicalSuffixCharacterised | lib/bindings/MQTTBinding.js:176-184 | the result is the one prefix without `.L` after which the id ends or continues with `.L` (both directions) |
| DeviceIds.RemoveLogicalSuffixExamples | lib/bindings/MQTTBinding.js:174-184 | `dev1`, `dev1.L2`, `dev1.L2.L3` give `dev1`; `therm7.L1` gives `therm7` |
| Options.ConnectionOptionsOf | lib/bindings/MQTTBinding.js:126-138 | each of the eight configurable options is the configured value when not null/undefined and its default otherwise; keepalive is 0 and the connect timeout 3600000 |
| Options.EmptyConfigConnectionOptions | lib/bindings/MQTTBinding.js:127-138 | with nothing configured: `mqtt`, `localhost`, 1883, null key and cert, rejectUnauthorized true, null username and password |
| Options.FalsyConnectionSettingsKept | lib/bindings/MQTTBinding.js:130-134 | a configured `false`, `0` or `""` is not replaced by the default |
| Options.SampleConfigConnectionOptions | config.js:3-6 | the sample configuration (host and port only) yields the same options as the defaults |
| Options.QosOption | lib/bindings/MQTTBinding.js:92-94 | `qos` present iff the configured value is truthy, and then equal to it |
| Options.ConfigPublishOptions | lib/bindings/MQTTBinding.js:91-97 | `qos` present iff truthy; `retain` present iff configured exactly `true`; no other key |
| Options.CommandPublishOptions | lib/bindings/MQTTBinding.js:195-201 | `qos` present iff truthy; `retain` present iff truthy, equal to the configured value; no other key |
| Options.RetainAsymmetry | lib/bindings/MQTTBinding.js:195-201 | the two paths agree on `qos` and disagree on `retain` iff it is truthy but not the boolean `true` |
| Options.UnsetPublishOptionsOmitted | lib/bindings/MQTTBinding.js:91-97 | unset, null or zero `qos` and unset, null or false `retain` leave both keys out on both paths |
| MqttBinding.Then | lib/bindings/MQTTBinding.js:161-164 | the second step runs only when the first called back without error; a first-step error ends the sequence |
| MqttBinding.RecreateSubscriptions | lib/bindings/MQTTBinding.js:56-79 | one subscribe of all four global topics; on error `e` the alarm is raised with `e` then the callback receives `e`; on success the alarm is released then the callback receives no error |
| MqttBinding.Start | lib/bindings/MQTTBinding.js:125-146 | connect with the derived options, then register the message and connect handlers, before anything else |
| MqttBinding.Rounds | lib/bindings/MQTTBinding.js:142-145 | three effects per 'connect' event |
| MqttBinding.RoundsAt | lib/bindings/MQTTBinding.js:142-145 | step `j` of round `k` is step `j` of the subscription round for the `k`-th subscribe outcome |
| MqttBinding.StartAt | lib/bindings/MQTTBinding.js:125-145 | the same, located in the whole `start` trace after the three setup effects |
| MqttBinding.StartRounds | lib/bindings/MQTTBinding.js:142-145 | the `k`-th 'connect' event yields one subscribe of the global topics and the `k`-th callback carrying the `k`-th subscribe outcome |
| MqttBinding.StartTraceDiscipline | lib/bindings/MQTTBinding.js:59-72 | no subscribe or callback before setup; every callback right after the matching alarm raise or release; every subscribe covers exactly the global topics |
| MqttBinding.StartEffectAt | lib/bindings/MQTTBinding.js:59-72 | the same three facts for one position of the trace |
| MqttBinding.StartScenarios | lib/bindings/MQTTBinding.js:62-71 | after one connect: subscribe, release, callback without error; or subscribe, raise with `e`, callback with `e` |
| MqttBinding.UnsubscribeAll | lib/bindings/MQTTBinding.js:109-120 | one unsubscribe of the global topics, then a callback with no error whatever the unsubscribe does |
| MqttBinding.Stop | lib/bindings/MQTTBinding.js:160-165 | with a client: unsubscribe, then `end(true)`, then the callback with the close result; without one: a single thrown fault and nothing else |
| MqttBinding.UnsubscribeNeverBlocks | lib/bindings/MQTTBinding.js:109-120 | placed first in a series, `unsubscribeAll` never ends it early: whatever follows runs right after the one unsubscribe |
| MqttBinding.StopClosesAfterUnsubscribe | lib/bindings/MQTTBinding.js:160-165 | the client is always ended, strictly after the unsubscribe |
| MqttBinding.SendConfigurationToDevice | lib/bindings/MQTTBinding.js:89-104 | before the client exists, a single thrown fault; otherwise one publish of exactly the serialised notification to the configuration-values topic, with configuration publish options; the callback receives the publish result unchanged |
| MqttBinding.ExecuteCommand | lib/bindings/MQTTBinding.js:194-208 | before the client exists, a single thrown fault; otherwise one publish of the payload to the command topic of the stripped id, which has no `.L`, with command publish options; then a callback without error |
| MqttBinding.PublishErrorPropagation | lib/bindings/MQTTBinding.js:194-208 | a configuration push reports a publish error to its caller; a command never does |
| MqttBinding.CommandScenario | lib/bindings/MQTTBinding.js:194-207 | QoS 1, retain true, device `therm7.L1`, API key `ABC123`: one publish to `/ABC123/therm7/cmd` with QoS 1, retain true and the payload unchanged |
| MqttBinding.DeviceProvisioningHandler | lib/bindings/MQTTBinding.js:153-155 | the device comes back unchanged with no error |

## Left out

- The MQTT client (`mqtt.connect`, `subscribe`, `unsubscribe`, `publish`, `end`, event registration) is not executed: its calls are effects in a trace, and what it reports is a parameter (subscribe outcomes, close outcome, publish outcome).
- The inbound message handler `commonBindings.messageHandler` is not part of this model; the binding only registers it (`ListenMessages`).
- `iotaUtils.createConfigurationNotification` and `JSON.stringify` are not part of this model; the serialised notification is an opaque string parameter.
- Logging and the alarm subsystem's internals are left out; only the raise and release calls appear in traces.
- The values of the suffix constants and of the alarm identifier are not part of this model; they are a `Constants` record, assumed non-empty and free of `/` where a lemma needs it.
- The scheduling done by `async.waterfall` / `async.series` and any interleaving of concurrent publishes and inbound messages are left out; sequencing is modelled as straight-line traces.
- Numbers in configuration values are integers: `NaN` and fractional values, which JavaScript truthiness also treats, are not modelled.
- The `mqtt` configuration section is assumed present; without it `start` (line 128), `sendConfigurationToDevice` (line 92) and `executeCommand` (line 196) throw a TypeError before any effect or callback.
- Transport errors other than subscribe, publish and close outcomes (an 'error' event, a connection that never reports 'connect') are not modelled; the binding registers no 'error' handler.
- Strings are sequences of Unicode characters, not UTF-16 code units: `Strings.IndexOf` counts characters, so after a character outside the Basic Multilingual Plane its index is smaller than JavaScript's; `DeviceIds.RemoveLogicalSuffix` still returns the same prefix, since `substring` cuts at the same place. Strings with unpaired surrogates are not modelled.
- Topic matching knows only the `+` wildcard, since the binding subscribes with no `#` filter.
