# Home Assistant MQTT configuration generator, modelled in Dafny

`generate_homeassistant_mqtt.py` reads the device list of a Domoticz hub
and writes the YAML files that make Home Assistant talk to the hub over
MQTT: automation rules that re-publish the hub's `domoticz/out` messages on
per-device status topics, and the light, binary sensor, sensor, power,
utility meter, climate, lock and group entries that read those topics and
publish commands on `domoticz/in`.

This project models the generator's core:

- the per-device builders (`GenLockAutomation` … `GenTempSensorList`) as
  functions from a `Device` record to documents, and the builders that also
  record names in the module-level lists (`LIGHT_SWITCHES`,
  `MOTION_SENSORS`, `DOOR_SENSORS`, `TEMP_SENSORS`, `GROUPED_SENSORS`) as
  methods of the class `Accumulators.Context`, whose fields are those lists;
- `GenGroupedSensors` and `GenGroups`, which turn the recorded lists into
  the group file, and `ConvertName`, the entity-id conversion they use;
- `GetThermostats`: clustering thermostat devices by the first two digits
  of their stripped ID, parsing the `Modes` strings of mode controls,
  classifying each member's role, reading the name overrides, and
  assembling one climate entry and its rules per cluster;
- `GenAllDeviceQueryActions` and `GenStartupAutomation`;
- the spacing loop of `DumpAndSpaceYaml`;
- `main`'s three device loops, the thermostat pass, the start-up rule and
  the group file (`Dispatch.Run`).

A YAML document is a `Docs.Value` (null, string, list, or mapping that keeps
insertion order); a Python `dict` is an insertion-ordered sequence of pairs
(`Dict`), where assigning an existing key replaces its value in place.
Errors the generator raises (a missing `Modes` field, a mode code `int()`
rejects, an unbound override table, a malformed override piece) are values
of `Docs.Error`, returned in a `Result`.

Each loop of the source is a method with a loop and invariants, proved equal
to a specification function, except the loops in `main` that copy one
builder's list or dictionary into an output (lines 807-808, 815-816 and
838-839), which are list concatenation and `Dict.PutAll`; the properties are
proved about the functions.
The main results: the mode tables read from a `Modes` string are inverse to
each other; the override table read from a rendered override string is that
string's table; the spacing loop inserts one blank line per delimiter line
and removing them gives back the dumped text; every rule publishes on the
topic its entity reads; every climate field is present exactly when its
device slot is filled, and the number of rules matches; whatever order the
cluster keys are visited in, the thermostat pass succeeds or fails alike and
on success writes the same climate entries and the same rules, each up to
their order (when several clusters fail, the error raised depends on which
is visited first); the ignore list does not change the sensor, power,
utility meter or climate files; the group file shows every candidate sensor
exactly once, provided no two group keys convert to the same entity id, no
name is in two groups and no candidate is a group's display name, and two
colliding group keys make sensors vanish from it.

## Model

| member | source | states |
|---|---|---|
| Strings.LowerChar | generate_homeassistant_mqtt.py:744 | an upper-case ASCII letter becomes its lower-case counterpart (code point plus 32), any other character is kept |
| Strings.Lower | generate_homeassistant_mqtt.py:463 | `str.lower()`: same length, each upper-case letter replaced by its lower-case counterpart, every other character unchanged |
| Strings.LowerIdempotent | generate_homeassistant_mqtt.py:463 | lower-casing twice is lower-casing once |
| Strings.ReplaceChar | generate_homeassistant_mqtt.py:470-471 | `replace(' ', '_')`: same length, every occurrence replaced, every other character kept |
| Strings.RemoveChar | generate_homeassistant_mqtt.py:744 | `replace('\'', '')`: the character no longer occurs and nothing new appears |
| Strings.ConvertName | generate_homeassistant_mqtt.py:743-744 | an entity id has no space, no apostrophe and no upper-case letter |
| Strings.ConvertNameIdempotent | generate_homeassistant_mqtt.py:743-744 | converting an entity id again changes nothing |
| Strings.ConvertNameAppend | generate_homeassistant_mqtt.py:743-744 | conversion works character by character, so it distributes over concatenation |
| Strings.ConvertNameChar | generate_homeassistant_mqtt.py:743-744 | a single character converts to itself lower-cased, a space to `_`, an apostrophe to nothing |
| Strings.ConvertNameSamples | generate_homeassistant_mqtt.py:743-744 | `" "` converts to `"_"`, `"'"` to the empty string, `"A"` to `"a"` |
| Strings.ConvertNamePlain | generate_homeassistant_mqtt.py:743-744 | a name that is already lower-case, without spaces or apostrophes, is its own entity id |
| Strings.LStrip | generate_homeassistant_mqtt.py:448 | `lstrip('0')`: a suffix of the input, not starting with the character, after only that character was removed |
| Strings.Take | generate_homeassistant_mqtt.py:450 | `t_id[:2]`: a prefix of the input, as long as it can be up to the bound |
| Strings.Split | generate_homeassistant_mqtt.py:463 | `split(';')`: at least one piece, no piece contains the separator |
| Strings.JoinSplit | generate_homeassistant_mqtt.py:701-708 | joining the pieces of a split with the separator gives back the text |
| Strings.SplitJoin | generate_homeassistant_mqtt.py:701-708 | splitting pieces joined by a separator none of them contains gives back the pieces |
| Strings.ParseNat | generate_homeassistant_mqtt.py:471 | `int()` succeeds exactly on non-empty digit strings |
| Strings.NatToStringRoundTrip | generate_homeassistant_mqtt.py:586 | a mode code written with `format` parses back to the same number |
| Dict.PutGet | generate_homeassistant_mqtt.py:470-471 | after `d[k] = v`, `k` maps to `v` and every other key to what it did before |
| Dict.PutKeys | generate_homeassistant_mqtt.py:470-471 | `d[k] = v` keeps the key order and appends a new key at the end |
| Dict.PutAllGet | generate_homeassistant_mqtt.py:817 | after `d.update(e)`, a key of `e` maps to its value in `e`, any other key as in `d` |
| Docs.ReportRuleShape | generate_homeassistant_mqtt.py:220-233 | a re-publishing rule has keys alias, trigger, condition, action; it is triggered by `domoticz/out`, guarded by the device idx and publishes the payload on the topic |
| Builders.SwitchCommandNames | generate_homeassistant_mqtt.py:138-139 | a switch command names the device idx and the command |
| Builders.LockWiring | generate_homeassistant_mqtt.py:117-144 | the lock rule is guarded by the idx and publishes LOCK/UNLOCK by nvalue on the topic the lock entity reads; lock and unlock send On and Off for that idx to `domoticz/in` |
| Builders.GuardedRuleShape | generate_homeassistant_mqtt.py:149-182 | a rule with an `and` condition is guarded by the idx and by the nvalue test and publishes the payload on the topic |
| Builders.LightConfigFields | generate_homeassistant_mqtt.py:185-217 | the light entity's keys in order (a dimmer adds `brightness_template`), its state topic, and on/off commands to `domoticz/in` |
| Builders.OnCommandNames | generate_homeassistant_mqtt.py:190-216 | the on command of a light or dimmer names the device idx |
| Builders.LightWiring | generate_homeassistant_mqtt.py:149-217 | the light rule handles nvalue 0 and 1 only and publishes on the state topic the light entity reads; its commands carry the idx |
| Builders.DimmerWiring | generate_homeassistant_mqtt.py:168-182 | the dimmer rule handles nvalue 2 and publishes the brightness on the same topic as the light rule |
| Builders.DeviceClass | generate_homeassistant_mqtt.py:238-252 | `motion` exactly for motion sensors, `opening` exactly for door contacts and contacts, `None` otherwise |
| Builders.BinarySensorWiring | generate_homeassistant_mqtt.py:220-253 | the binary sensor rule publishes ON/OFF on the topic the sensor entity reads, with the device class of its switch type |
| Builders.SensorConfigFields | generate_homeassistant_mqtt.py:340-346 | a sensor entry carries its name, the device's sensor status topic, unit and value template |
| Builders.PowerWiring | generate_homeassistant_mqtt.py:255-288 | the kWh rule publishes kwh and watts readings on the topic both power sensors read, each picking its own field |
| Builders.MeterKeysDistinct | generate_homeassistant_mqtt.py:295-296 | the five utility meter keys of a device are distinct |
| Builders.SensorPayload | generate_homeassistant_mqtt.py:309-320 | a payload exists exactly for the four temperature-class types |
| Builders.TempSensorRule | generate_homeassistant_mqtt.py:305-332 | a rule exists exactly for the four temperature-class types; otherwise the builder returns None |
| Builders.FahrenheitInserted | generate_homeassistant_mqtt.py:306-308 | the Fahrenheit payload is the Celsius one with ` * 1.8 + 32` inserted right after the `|float` filter |
| Builders.WindReadings | generate_homeassistant_mqtt.py:317 | the wind payload reads speed from svalue3, gust from svalue4, chill from svalue6 and direction from svalue2 |
| Builders.TempSensorRuleWiring | generate_homeassistant_mqtt.py:321-332 | the temperature rule is guarded by the idx and publishes the type's payload on the sensor status topic |
| Builders.SpecConfigs | generate_homeassistant_mqtt.py:340-397 | one sensor entry per spec, built from the spec |
| Builders.SpecNames | generate_homeassistant_mqtt.py:341-398 | each recorded name is the device name plus the spec's suffix |
| Builders.TempSensorsWiring | generate_homeassistant_mqtt.py:335-401 | every sensor entry of a device carries its recorded name and reads the topic the device's rule publishes on |
| Builders.TempSensorCount | generate_homeassistant_mqtt.py:339-400 | Temp gives one sensor, Temp + Humidity two, Temp + Humidity + Baro three, Wind four |
| Builders.TypeMentions | generate_homeassistant_mqtt.py:339-348 | of the four types, the `'Temp' in` test holds for all but Wind and the `'Humidity' in` test for the two humidity types |
| Builders.GenAllDeviceQueryActions | generate_homeassistant_mqtt.py:646-655 | one `getdeviceinfo` publish to `domoticz/in` per device, in device order |
| Builders.GenStartupAutomation | generate_homeassistant_mqtt.py:658-664 | the start-up rule has keys alias, trigger, action and its action is the list of query actions |
| Clusters.ClusterKey | generate_homeassistant_mqtt.py:448-450 | a cluster key has at most two characters and begins the ID with its leading zeros stripped |
| Clusters.KeyListMembers | generate_homeassistant_mqtt.py:446-452 | a key is collected exactly when some Z-Wave thermostat device produces it |
| Clusters.MembersSpec | generate_homeassistant_mqtt.py:455 | a device belongs to a cluster exactly when its stripped ID starts with the key |
| Clusters.OwnCluster | generate_homeassistant_mqtt.py:446-455 | a device that contributes a key belongs to that key's cluster |
| Clusters.ClassifyCluster | generate_homeassistant_mqtt.py:458-495 | the member loop computes the classification of the whole member list |
| Clusters.ClassifyMember | generate_homeassistant_mqtt.py:459-495 | one member's test chain gives the step of the classification |
| Clusters.ScanHeatWords | generate_homeassistant_mqtt.py:486-491 | a setpoint is a heating setpoint exactly when its lower-cased name contains a heating word and not `econ` |
| Clusters.ClassifyErrorSticks | generate_homeassistant_mqtt.py:458-483 | once a member raises, the rest of the members do not change the outcome |
| Clusters.LastIdx | generate_homeassistant_mqtt.py:458-495 | a slot is filled exactly when some member has that role |
| Clusters.LastHeatingIdx | generate_homeassistant_mqtt.py:484-491 | the heating setpoint slot is filled exactly when some member is a heating setpoint |
| Clusters.ClassifySlots | generate_homeassistant_mqtt.py:456-495 | each slot holds the idx of the last member of its role (a later member overwrites an earlier one) |
| Clusters.StepSlots | generate_homeassistant_mqtt.py:459-495 | one member sets only the slot of its role |
| Clusters.SetpointNeverTemperature | generate_homeassistant_mqtt.py:484-493 | a `Temp` device that is a setpoint never fills the temperature slot, because the setpoint test comes first |
| Clusters.LastIdxWitness | generate_homeassistant_mqtt.py:458-495 | a filled slot holds the idx of a member of that role |
| Clusters.ClassifyOk | generate_homeassistant_mqtt.py:458-483 | classification succeeds exactly when every mode member has a `Modes` string whose kept codes parse |
| ModeMaps.StoredLabelOfVocabulary | generate_homeassistant_mqtt.py:467-471 | a thermostat mode label from the vocabulary is stored as it is |
| ModeMaps.ParseModes | generate_homeassistant_mqtt.py:463-483 | the pair loop computes the fold of the mode pairs, stopping before a trailing token |
| ModeMaps.ModePair | generate_homeassistant_mqtt.py:467-482 | one pair: skipped when the label is not allowed, else both tables updated, raising when the code does not parse |
| ModeMaps.FoldErrorSticks | generate_homeassistant_mqtt.py:471 | a code that does not parse aborts the rest of the string |
| ModeMaps.KeptPairs | generate_homeassistant_mqtt.py:465-483 | at most one kept pair per pair read |
| ModeMaps.Dedup | generate_homeassistant_mqtt.py:562 | `list(t_modes.keys())`: distinct labels, exactly those of the kept pairs |
| ModeMaps.DedupDistinct | generate_homeassistant_mqtt.py:562 | distinct labels are listed in the order they were read |
| ModeMaps.ModeMapFails | generate_homeassistant_mqtt.py:471 | parsing succeeds exactly when every kept code is a digit string |
| ModeMaps.ModeMapTables | generate_homeassistant_mqtt.py:470-471 | the two tables map each kept code to the last label and each label to the last code stored for it |
| ModeMaps.ModeMapRoundTrip | generate_homeassistant_mqtt.py:470-471 | with distinct labels, looking a code's label up in the code table gives the code back |
| ModeMaps.ModeMapInverse | generate_homeassistant_mqtt.py:470-482 | with distinct codes and labels, both tables have one entry per kept pair and are inverse to each other |
| ModeMaps.TableCodesParse | generate_homeassistant_mqtt.py:470-471 | every key of the code-to-label table is a number |
| ModeMaps.ModeMapOfJoin | generate_homeassistant_mqtt.py:463 | a lower-case `Modes` string is read token by token |
| ModeMaps.ExampleUnrecognisedPairDropped | generate_homeassistant_mqtt.py:467-469 | `0;auto;1;bogus;2;cool` keeps auto and cool and drops the pair with an unknown label |
| ModeMaps.ExampleTrailingTokenIgnored | generate_homeassistant_mqtt.py:466 | `0;auto;1` keeps auto and ignores the trailing code |
| ModeMaps.ExampleFanKeepsEveryLabel | generate_homeassistant_mqtt.py:477-483 | fan modes keep any label, spaces included |
| Overrides.ParseOverrides | generate_homeassistant_mqtt.py:498-502 | the piece loop computes the override table; an empty string leaves it unbound, a piece without exactly one `:` raises |
| Overrides.OverrideErrorSticks | generate_homeassistant_mqtt.py:501 | a malformed piece aborts the rest of the string |
| Overrides.ClimateName | generate_homeassistant_mqtt.py:503-506 | the climate name is never empty: a non-empty override, or `Thermostat` |
| Overrides.OverridesRoundTrip | generate_homeassistant_mqtt.py:499-502 | reading a rendered `id:name,…` string gives back its table |
| Overrides.NameFromOverrides | generate_homeassistant_mqtt.py:498-506 | a cluster whose key is in the overrides gets that name, any other key the default |
| Climate.StateRuleShape | generate_homeassistant_mqtt.py:510-521 | a climate state rule is triggered by `domoticz/out`, guarded by the slot idx and publishes on its climate topic |
| Climate.CommandRuleShape | generate_homeassistant_mqtt.py:549-557 | a command rule has no condition, is triggered by its command topic and publishes to `domoticz/in` |
| Climate.CodeEntriesParse | generate_homeassistant_mqtt.py:586 | every code written into the command map parses back to its code |
| Climate.TempBlock | generate_homeassistant_mqtt.py:508-523 | one rule and the current temperature field exactly when the temperature slot is filled |
| Climate.SetpointBlock | generate_homeassistant_mqtt.py:524-558 | two rules and the four target temperature fields exactly when the heating setpoint slot is filled |
| Climate.ModeBlock | generate_homeassistant_mqtt.py:559-590 | two rules and the three mode fields exactly when the mode slot is filled |
| Climate.ActionBlock | generate_homeassistant_mqtt.py:591-610 | one rule and the action topic exactly when the operating state slot is filled |
| Climate.FanBlock | generate_homeassistant_mqtt.py:611-642 | two rules and the three fan mode fields exactly when the fan mode slot is filled |
| Climate.BaseFields | generate_homeassistant_mqtt.py:497-507 | every climate entry starts with platform, name and send_if_off |
| Climate.RuleCount | generate_homeassistant_mqtt.py:508-642 | a cluster contributes 1, 2, 2, 1 and 2 rules for its filled slots |
| Climate.ClimateKeys | generate_homeassistant_mqtt.py:496-642 | the climate entry's keys, in order, are the base keys followed by those of each filled slot |
| Climate.ClimateNameField | generate_homeassistant_mqtt.py:503-506 | the entry's name is the name chosen for the cluster |
| Climate.TempWiring | generate_homeassistant_mqtt.py:508-523 | the temperature rule publishes the (converted) reading on the entry's current temperature topic |
| Climate.SetpointWiring | generate_homeassistant_mqtt.py:524-558 | the target rule publishes on the entry's state topic, the set rule listens on its command topic and forwards to `domoticz/in`; max 78, min 52 |
| Climate.SetpointPayloadShape | generate_homeassistant_mqtt.py:537-545 | the target payload sets max_temp to 78 and passes readings above it through unconverted |
| Climate.ModeWiring | generate_homeassistant_mqtt.py:559-590 | the mode rules publish via the code-to-label map on the state topic and via the label-to-code map from the command topic; `modes` lists the labels |
| Climate.ActionWiring | generate_homeassistant_mqtt.py:591-610 | the action rule publishes off/cooling/heating on the entry's action topic |
| Climate.FanWiring | generate_homeassistant_mqtt.py:611-642 | the fan rules use the fan maps and the fan topics, and the command names the thermostat mode idx |
| Climate.FanCommandWithoutModeMember | generate_homeassistant_mqtt.py:639 | a cluster with a fan mode but no mode control sends fan commands to idx `None` |
| Climate.ModeMapsAgree | generate_homeassistant_mqtt.py:575-586 | with distinct labels, the code the state map reports is mapped back to the same code by the command map |
| Climate.ModeOnlyCluster | generate_homeassistant_mqtt.py:559-590 | a cluster with only a mode control gets two rules and the base and mode fields |
| Thermostats.GetThermostats | generate_homeassistant_mqtt.py:437-644 | the result is the assembly of the clusters in an order that visits every collected key once |
| Thermostats.ThermostatIds | generate_homeassistant_mqtt.py:446-451 | the collection loop computes the key list |
| Thermostats.VisitCluster | generate_homeassistant_mqtt.py:455-643 | one cluster's loop body computes the cluster's output |
| Thermostats.VisitOk | generate_homeassistant_mqtt.py:454-643 | visiting one more key appends its rules and its climate entry |
| Thermostats.ClusterOutputCases | generate_homeassistant_mqtt.py:455-643 | a cluster raises the classification error, else the override error, else yields its climate entry and rules |
| Thermostats.CollectSnoc | generate_homeassistant_mqtt.py:643 | rules and climate entries accumulate in visiting order; the first error aborts |
| Thermostats.AbortOrder | generate_homeassistant_mqtt.py:454-643 | an error in a cluster is the pass's error whatever keys are left |
| Thermostats.CollectOk | generate_homeassistant_mqtt.py:454-644 | the pass succeeds exactly when every cluster succeeds |
| Thermostats.CollectClimates | generate_homeassistant_mqtt.py:643-644 | the climate list is the clusters' entries in visiting order |
| Thermostats.OrderIndependent | generate_homeassistant_mqtt.py:452-454 | whichever order the key set is visited in, the pass succeeds or fails alike and on success yields the same climate entries and the same rules, as multisets |
| Thermostats.CollectRules | generate_homeassistant_mqtt.py:643 | the rule list is the clusters' rules concatenated in visiting order |
| Thermostats.PermutedConcat | generate_homeassistant_mqtt.py:643 | concatenating the clusters' rules in another order gives a permutation of the same rules |
| Thermostats.FirstErrorWins | generate_homeassistant_mqtt.py:643 | of two failing clusters, the one visited first decides the error raised |
| Accumulators.UngroupedCount | generate_homeassistant_mqtt.py:417-423 | a name is listed ungrouped as often as it was recorded minus as often as it occurs in a group |
| Accumulators.RemoveEachCount | generate_homeassistant_mqtt.py:420-423 | removing the first occurrence of each grouped name takes exactly those names away |
| Accumulators.RemoveFirstOrder | generate_homeassistant_mqtt.py:422-423 | `l.remove(x)` leaves the other elements in their order: a strictly increasing index map into the old list |
| Accumulators.RemoveEachOrder | generate_homeassistant_mqtt.py:420-423 | after all removals the remaining names are a subsequence of the candidates, in their order |
| Accumulators.UngroupedOrder | generate_homeassistant_mqtt.py:416-428 | the catch-all group lists the unclaimed candidates in the order they were recorded |
| GroupCoverage.FlattenMember | generate_homeassistant_mqtt.py:420-421 | a name is subtracted from the candidates exactly when some group lists it |
| GroupCoverage.GroupSurvives | generate_homeassistant_mqtt.py:404-412 | with distinct converted keys, every recorded group keeps its own entry in the grouped sensors document |
| GroupCoverage.EachCandidateOnce | generate_homeassistant_mqtt.py:404-428 | under distinct converted keys, disjoint groups and no candidate used as a display name, a candidate is in the catch-all group exactly when no group lists it, at most once, and otherwise in exactly one group, whose entry is in the document |
| GroupCoverage.CollidingGroupKeys | generate_homeassistant_mqtt.py:271-429 | a `Temp + Humidity` device `a'` and a kWh device `a`: both group keys convert to `a`, the power group replaces the humidity group, the humidity device's sensors are in no group, and `group.a` is listed twice |
| GroupCoverage.CollidingState | generate_homeassistant_mqtt.py:287-358 | the two builders record the humidity device's two sensors, its group under `a'`, then the power group under `a` |
| GroupCoverage.CollidingDoc | generate_homeassistant_mqtt.py:404-412 | of two groups whose keys convert alike, only the later one is in the document |
| GroupCoverage.UngroupedEmpty | generate_homeassistant_mqtt.py:420-423 | the humidity group's members remove both of the device's sensors from the candidates |
| Accumulators.RemoveFirstSpec | generate_homeassistant_mqtt.py:422-423 | `l.remove(x)` deletes the first occurrence and nothing else |
| Accumulators.GroupEntities | generate_homeassistant_mqtt.py:409-411 | a group lists the converted sensor ids of its members after the display name |
| Accumulators.GroupedSensorsKeys | generate_homeassistant_mqtt.py:406-408 | the group file's keys are the converted group keys |
| Accumulators.GroupedSensorsDistinct | generate_homeassistant_mqtt.py:404-412 | the grouped sensors document has no repeated key |
| Accumulators.MeterEntries | generate_homeassistant_mqtt.py:295-300 | five distinct meter entries, one per cycle, each sourced from the device's kWh sensor |
| Accumulators.MeterSourceIsKwhSensor | generate_homeassistant_mqtt.py:276-298 | the meters' source is the entity id of the kWh sensor the power builder names |
| Accumulators.KwhEntityId | generate_homeassistant_mqtt.py:298 | the entity id of `<name>_kwh` is `sensor.` plus the converted name plus `_kwh` |
| Accumulators.HumidityGroupExists | generate_homeassistant_mqtt.py:357-368 | the barometer step finds the group the humidity step created |
| Accumulators.TempStepNames | generate_homeassistant_mqtt.py:347-398 | the recorded temperature-class names are exactly the names of the sensor entries built |
| Accumulators.TempStepOthers | generate_homeassistant_mqtt.py:335-401 | the temperature builder records no light, motion or door name |
| Accumulators.TempStepGroups | generate_homeassistant_mqtt.py:357-400 | the group each temperature-class type records, by type |
| Accumulators.HumidityOnlyGroupsMissingEntry | generate_homeassistant_mqtt.py:357-358 | a humidity-only device groups a `_temperature` sensor that was never built |
| Accumulators.PutNamed | generate_homeassistant_mqtt.py:357-400 | every recorded group starts with a display name |
| Accumulators.Context.constructor | generate_homeassistant_mqtt.py:95-102 | the run starts with every list empty |
| Accumulators.Context.GenLightConfigs | generate_homeassistant_mqtt.py:185-217 | returns the light entry and records the light's name |
| Accumulators.Context.GenBinarySensor | generate_homeassistant_mqtt.py:236-253 | returns the binary sensor entry and records the name as motion or door |
| Accumulators.Context.GenPowerConfigs | generate_homeassistant_mqtt.py:271-288 | returns the kWh and watts entries and records their group |
| Accumulators.Context.GenUtilityMeterConfigs | generate_homeassistant_mqtt.py:291-302 | returns the meter entries and records the consumption group |
| Accumulators.Context.GenTempSensorList | generate_homeassistant_mqtt.py:335-401 | returns the device's sensor entries and records their names and group |
| Accumulators.Context.TemperatureBlock | generate_homeassistant_mqtt.py:339-347 | the temperature entry and its name when the type mentions Temp |
| Accumulators.Context.HumidityBlock | generate_homeassistant_mqtt.py:348-358 | the humidity entry, its name and the group when the type mentions Humidity |
| Accumulators.Context.BarometerBlock | generate_homeassistant_mqtt.py:359-368 | the barometer entry, its name, appended to the humidity group |
| Accumulators.Context.WindBlock | generate_homeassistant_mqtt.py:369-400 | the four wind entries, their names and their group |
| Accumulators.Context.GenGroupedSensors | generate_homeassistant_mqtt.py:404-412 | the loop builds the grouped sensors document of the recorded groups |
| Accumulators.Context.GenGroups | generate_homeassistant_mqtt.py:415-434 | the loops build the sensors and lights groups of the recorded lists |
| Accumulators.RemoveMembers | generate_homeassistant_mqtt.py:421-423 | the inner loop removes one group's members from the candidates |
| Dispatch.IgnoredDevice | generate_homeassistant_mqtt.py:786-790 | a device on the ignore list changes nothing |
| Dispatch.BinaryDevice | generate_homeassistant_mqtt.py:791-793 | a motion sensor or contact adds its rule and binary sensor entry |
| Dispatch.DimmerDevice | generate_homeassistant_mqtt.py:794-798 | a dimmer adds the light rule, then the dimmer rule, and a light entry |
| Dispatch.LockDevice | generate_homeassistant_mqtt.py:799-801 | a door lock adds its rule and lock entry |
| Dispatch.OtherDevice | generate_homeassistant_mqtt.py:791-801 | a device of any other switch type changes nothing |
| Dispatch.LightDeviceKeeps | generate_homeassistant_mqtt.py:785-801 | a light-class device records no group and changes no sensor, power, utility meter or climate output |
| Dispatch.LightPassGroups | generate_homeassistant_mqtt.py:785-801 | the whole light pass leaves the groups as they were |
| Dispatch.NullRule | generate_homeassistant_mqtt.py:806 | a null entry is appended exactly for a device whose type has no rule |
| Dispatch.TempPassRules | generate_homeassistant_mqtt.py:805-806 | one automation entry per temperature-class device, in order |
| Dispatch.TempPassSensors | generate_homeassistant_mqtt.py:807-808 | the sensor list grows by each device's sensor entries, in order |
| Dispatch.KwhDevice | generate_homeassistant_mqtt.py:812-817 | a kWh device adds its rule, its two power entries and its five meters |
| Dispatch.OtherUtility | generate_homeassistant_mqtt.py:813 | a utility device of another subtype changes nothing |
| Dispatch.PassesNamed | generate_homeassistant_mqtt.py:785-817 | every group recorded by the passes starts with a display name |
| Dispatch.IgnoreScope | generate_homeassistant_mqtt.py:786-790 | two ignore lists give runs that succeed alike and agree on the sensor, power, utility meter and climate files |
| Dispatch.RunOutcome | generate_homeassistant_mqtt.py:784-826 | a run fails exactly with the thermostat pass's error; otherwise it carries the pass's climate entries and ends the automation list with the start-up rule |
| Dispatch.GroupsFileLookup | generate_homeassistant_mqtt.py:837-839 | in the group file, `sensors` and `lights` are the catch-all groups and every other key is a recorded group |
| Dispatch.Run | generate_homeassistant_mqtt.py:775-839 | main's passes compute the run's outputs for the order the cluster keys were visited in |
| Dispatch.LightPassRun | generate_homeassistant_mqtt.py:785-801 | the light loop computes the light pass |
| Dispatch.TempPassRun | generate_homeassistant_mqtt.py:805-808 | the temperature loop computes the temperature pass |
| Dispatch.UtilityPassRun | generate_homeassistant_mqtt.py:811-817 | the utility loop computes the utility pass |
| Spacing.SpacedLength | generate_homeassistant_mqtt.py:704-707 | one blank line is added per line containing the delimiter |
| Spacing.UnspaceSpaced | generate_homeassistant_mqtt.py:704-707 | dropping the blank line before each delimiter line gives back the lines |
| Spacing.SpacedNoBreak | generate_homeassistant_mqtt.py:704-707 | no spaced line contains a line break |
| Spacing.DumpAndSpaceYaml | generate_homeassistant_mqtt.py:697-708 | the file's lines are the dumped lines with a blank before each delimiter line, and unspacing them gives back the dumped text |

## Left out

- The hub queries (`GetDevices`) are HTTP requests: their answers are inputs (`Dispatch.Queries`, and the device list given to `GetThermostats`).
- `yaml.dump` is not modelled: `DumpAndSpaceYaml` takes the dumped text, and the documents the run produces are `Docs.Value`s.
- Writing the files (`WriteFile`, `MakeDirIfNotExists`), `PrintDestinations`, `CheckForYamlPackage`, the "Skipping …" and "Not implemented" messages and argument parsing are I/O; the options the run reads (ignore list, override string, Fahrenheit flag) are parameters of `Dispatch.Run`.
- `GetScenes` is never called, and it names an undefined module (`rullib2`, line 684); it is not modelled.
- `CLIMATE_DEVS` and `LOCK_DEVS` are never written or read; the cooling setpoint slot (`cset_idx`) is never assigned; neither is modelled.
- `Dispatch.Run`: the Fahrenheit option defaults to true and `store_true` can only set it, so from the command line it is always true; the model keeps it a parameter.
- `Dispatch.Run`: the ignore list is applied only in the light pass, as the code does; temperature, utility and thermostat devices on the list are still processed (`Dispatch.IgnoreScope`).
- `Thermostats.GetThermostats`: Python's iteration order over the key set is not fixed; the model returns the visiting order as a ghost result and proves that success and the multisets of climate entries and rules do not depend on it; the order of those entries and rules, and which error is raised when several clusters fail, do depend on it (`Thermostats.FirstErrorWins`).
- `Overrides.ParseOverrides`: the table is rebuilt for every cluster in the code; it is read once per cluster here too (`ClusterOutput`), and an empty override string is the `UnboundLocalError` the code raises on its first cluster.
- `Strings.ParseNat`: Python's `int()` also accepts a sign, surrounding whitespace and underscores between digits; the model accepts only plain digit strings, so such mode codes are reported as errors here.
- `Strings.Lower`: only ASCII letters are lower-cased; Python's Unicode case mapping is not modelled.
- `Builders.LightConfig`: the on command is `.encode('ascii', 'ignore')`d in the code, which yields a byte string under Python 3; the model keeps the text.
- `Builders.TempSensorRule`: the value 1.8 and 32 and the float filters are template text; no floating-point conversion is modelled.
- `Accumulators.Context.GenGroups`: every candidate sensor is shown exactly once only under the conditions of `GroupCoverage.EachCandidateOnce`. The temperature builder keys its group with spaces made underscores (line 338), the power builder with `ConvertName` (line 287), so two keys can convert alike: the later group's entry then replaces the earlier one, whose members were already taken out of the catch-all group and are shown in no group (`GroupCoverage.CollidingGroupKeys`).
- `Accumulators.GroupsDoc`: motion and door names are listed as `sensor.<name>`, as the code writes them, although their entities are binary sensors.
- `Accumulators.Context.GenGroups`: the catch-all `sensors` and `lights` entries are put over any recorded group with the same converted key, as `group_yaml[k] = v` does.
- `Accumulators.Context.GenTempSensorList`: each of its four `if` blocks is a method of its own (`TemperatureBlock` … `WindBlock`); the barometer block needs the humidity group the humidity block made, which `Accumulators.HumidityGroupExists` proves.
- `Dispatch.Run`: main's separate output lists are the fields of one `Out` record, and the group file is built from the accumulators at the end of the run rather than after the files are written.
