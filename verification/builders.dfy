/**
 * The per-device builders: the automation rule and the configuration
 * entries the generator writes for a lock, a light or dimmer, a binary
 * sensor, a temperature or wind sensor and a kWh meter, and the startup
 * rule that asks the hub to report every device. Each rule re-publishes the
 * hub's messages about one device on that device's status topic, and each
 * configuration entry listens on that same topic.
 */
module Builders {
  import opened Wrappers
  import opened Strings
  import opened Docs
  import Dict

  /** A template choice on a message's `nvalue`: `yes` when it is `n`, `no` otherwise. */
  function NvalueSwitch(n: string, yes: string, no: string): string {
    "{% if trigger.payload_json.nvalue == " + n + " %}" + yes + "{% else %}" + no + "{% endif %}"
  }

  function Quoted(s: string): string {
    "\"" + s + "\""
  }

  /** The `"idx": <idx>` member of a hub command. */
  function IdxField(idx: string): string {
    "\"idx\": " + idx
  }

  /** A `switchlight` command to the hub for device `idx`. */
  function SwitchCommand(idx: string, cmd: string): string {
    "{\"command\": \"switchlight\", " + IdxField(idx) + ", \"switchcmd\": " + Quoted(cmd) + "}"
  }

  /** A switch command names its device and its command. */
  lemma SwitchCommandNames(idx: string, cmd: string)
    ensures Contains(SwitchCommand(idx, cmd), IdxField(idx))
    ensures Contains(SwitchCommand(idx, cmd), Quoted(cmd))
  {
    var head := "{\"command\": \"switchlight\", ";
    ContainsMiddle(head, IdxField(idx), ", \"switchcmd\": ");
    ContainsExtend(head + IdxField(idx) + ", \"switchcmd\": ", IdxField(idx), Quoted(cmd));
    ContainsExtend(head + IdxField(idx) + ", \"switchcmd\": " + Quoted(cmd), IdxField(idx), "}");
    ContainsMiddle(head + IdxField(idx) + ", \"switchcmd\": ", Quoted(cmd), "}");
  }

  /** A configuration entry's field that names the device's MQTT platform. */
  const Platform := ("platform", Str("mqtt"))

  // Locks

  const Locked := "LOCK"
  const Unlocked := "UNLOCK"

  const LockPayload := "{\"state\": " + NvalueSwitch("1", Quoted(Locked), Quoted(Unlocked)) + " }"

  function LockRule(d: Device): Doc {
    ReportRule(d.idx + "_lock", d.idx, StatusTopic(d.idx, "lock"), LockPayload)
  }

  function LockConfig(d: Device): Doc {
    [("name", Str(d.name)),
     Platform,
     ("command_topic", Str(InTopic)),
     ("payload_lock", Str(SwitchCommand(d.idx, "On"))),
     ("payload_unlock", Str(SwitchCommand(d.idx, "Off"))),
     ("state_topic", Str(StatusTopic(d.idx, "lock"))),
     ("state_locked", Str(Locked)),
     ("state_unlocked", Str(Unlocked)),
     ("value_template", Str("{{ value_json.state }}"))]
  }

  /**
   * The lock rule reports the device's messages on the topic the lock entry
   * listens to, as the entry's locked state when `nvalue` is 1 and as its
   * unlocked state otherwise; the entry locks with `On` and unlocks with
   * `Off` sent to the same device.
   */
  lemma LockWiring(d: Device)
    ensures var r, c := LockRule(d), LockConfig(d);
      && Keys(r) == RuleKeys
      && StrField(r, "alias") == Some(d.idx + "_lock")
      && TriggerTopic(r) == Some(OutTopic)
      && ScopedTo(r, d.idx)
      && StrField(c, "state_topic") == PublishTopic(r) == Some(StatusTopic(d.idx, "lock"))
      && StrField(c, "state_locked") == Some(Locked)
      && StrField(c, "state_unlocked") == Some(Unlocked)
      && PublishPayload(r) == Some(LockPayload)
      && Contains(LockPayload, NvalueSwitch("1", Quoted(Locked), Quoted(Unlocked)))
      && StrField(c, "command_topic") == Some(InTopic)
      && StrField(c, "payload_lock") == Some(SwitchCommand(d.idx, "On"))
      && StrField(c, "payload_unlock") == Some(SwitchCommand(d.idx, "Off"))
      && Contains(SwitchCommand(d.idx, "On"), IdxField(d.idx))
      && Contains(SwitchCommand(d.idx, "Off"), IdxField(d.idx))
  {
    SwitchCommandNames(d.idx, "On");
    SwitchCommandNames(d.idx, "Off");
    ReportRuleShape(d.idx + "_lock", d.idx, StatusTopic(d.idx, "lock"), LockPayload);
    var c := LockConfig(d);
    Dict.GetIndex(c, 2);
    Dict.GetIndex(c, 3);
    Dict.GetIndex(c, 4);
    Dict.GetIndex(c, 5);
    Dict.GetIndex(c, 6);
    Dict.GetIndex(c, 7);
    ContainsMiddle("{\"state\": ", NvalueSwitch("1", Quoted(Locked), Quoted(Unlocked)), " }");
  }

  // Lights and dimmers

  /** A rule kept only for messages of device `idx` that also pass `test`. */
  function GuardedRule(alias: string, idx: string, test: string, topic: string, payload: string): Doc {
    [("alias", Str(alias)),
     ("trigger", MqttTrigger(OutTopic)),
     ("condition", Fields([("condition", Str("and")),
                           ("conditions", Items([TemplateCondition(IdxTest(idx)), TemplateCondition(test)]))])),
     ("action", Items([Publish(topic, payload)]))]
  }

  lemma GuardedRuleShape(alias: string, idx: string, test: string, topic: string, payload: string)
    ensures var r := GuardedRule(alias, idx, test, topic, payload);
      && Keys(r) == RuleKeys
      && StrField(r, "alias") == Some(alias)
      && TriggerTopic(r) == Some(OutTopic)
      && ScopedTo(r, idx)
      && Mentions(Get(r, "condition").value, test)
      && PublishTopic(r) == Some(topic)
      && PublishPayload(r) == Some(payload)
  {
    var r := GuardedRule(alias, idx, test, topic, payload);
    Dict.GetIndex(r, 0);
    Dict.GetIndex(r, 1);
    Dict.GetIndex(r, 2);
    Dict.GetIndex(r, 3);
    var conds := Items([TemplateCondition(IdxTest(idx)), TemplateCondition(test)]);
    assert Mentions(TemplateCondition(IdxTest(idx)).entries[1].1, IdxTest(idx));
    assert Mentions(TemplateCondition(test).entries[1].1, test);
    assert Mentions(conds.elems[0], IdxTest(idx));
    assert Mentions(conds.elems[1], test);
    var c := Fields([("condition", Str("and")), ("conditions", conds)]);
    assert Mentions(c.entries[1].1, IdxTest(idx));
    assert Mentions(c.entries[1].1, test);
    Dict.GetIndex(MqttTrigger(OutTopic).entries, 1);
    var dt := [("topic", Str(topic)), ("payload_template", Str(payload))];
    Dict.GetIndex(Publish(topic, payload).entries, 1);
    Dict.GetIndex(dt, 0);
    Dict.GetIndex(dt, 1);
  }

  const OnOffTest := "{{ trigger.payload_json.nvalue in [0, 1] }}"
  const LevelTest := "{{ trigger.payload_json.nvalue == 2 }}"
  const LightPayload := "{ \"state\": " + NvalueSwitch("0", Quoted("off"), Quoted("on")) + " }"
  const DimmerPayload :=
    "{\"state\": \"on\", \"brightness\": {% with d_val=trigger.payload_json.svalue1|float * 2.55 %}{{ d_val|int }} {% endwith %} }"

  function LightRule(d: Device): Doc {
    GuardedRule(d.idx + "_light", d.idx, OnOffTest, StatusTopic(d.idx, "light"), LightPayload)
  }

  function DimmerRule(d: Device): Doc {
    GuardedRule(d.idx + "_dimmer", d.idx, LevelTest, StatusTopic(d.idx, "light"), DimmerPayload)
  }

  /** The dimmer's on command: a level when a brightness is given, a plain `On` otherwise. */
  function DimmerOnCommand(idx: string): string {
    "{\"command\": \"switchlight\", " + IdxField(idx)
    + ", {%- if brightness is defined -%}\"switchcmd\": \"Set Level\", \"level\": "
    + "{{ brightness // 2.55}}{%- else -%}\"switchcmd\": \"On\"{%- endif -%} }"
  }

  function PlainOnCommand(idx: string): string {
    "{\"command\": \"switchlight\", \"switchcmd\": \"On\", " + IdxField(idx) + "}"
  }

  const LightKeys := ["name", "platform", "schema", "command_topic", "state_topic", "state_template", "command_off_template"]

  function LightConfig(d: Device): Doc {
    var base := [("name", Str(d.name)),
                 Platform,
                 ("schema", Str("template")),
                 ("command_topic", Str(InTopic)),
                 ("state_topic", Str(StatusTopic(d.idx, "light"))),
                 ("state_template", Str("{{ value_json.state }}")),
                 ("command_off_template", Str(SwitchCommand(d.idx, "Off")))];
    if d.switchType == "Dimmer" then
      base + [("command_on_template", Str(DimmerOnCommand(d.idx))),
              ("brightness_template", Str("{{ value_json.brightness|int }}"))]
    else
      base + [("command_on_template", Str(PlainOnCommand(d.idx)))]
  }

  /** The on command a light entry sends: with a level for a dimmer, a plain `On` otherwise. */
  function OnCommand(d: Device): string {
    if d.switchType == "Dimmer" then DimmerOnCommand(d.idx) else PlainOnCommand(d.idx)
  }

  lemma LightConfigFields(d: Device)
    ensures var c := LightConfig(d);
      && Keys(c) == LightKeys + (if d.switchType == "Dimmer" then ["command_on_template", "brightness_template"]
                                 else ["command_on_template"])
      && StrField(c, "command_topic") == Some(InTopic)
      && StrField(c, "state_topic") == Some(StatusTopic(d.idx, "light"))
      && StrField(c, "command_off_template") == Some(SwitchCommand(d.idx, "Off"))
      && StrField(c, "command_on_template") == Some(OnCommand(d))
  {
    var c := LightConfig(d);
    LightConfigKeys(d);
    var ks := Keys(c);
    forall i | 0 <= i < |c| ensures c[i].0 == ks[i] { }
    Dict.GetIndex(c, 3);
    Dict.GetIndex(c, 4);
    Dict.GetIndex(c, 6);
    Dict.GetIndex(c, 7);
  }

  lemma LightConfigKeys(d: Device)
    ensures Keys(LightConfig(d)) == LightKeys + (if d.switchType == "Dimmer" then ["command_on_template", "brightness_template"]
                                                 else ["command_on_template"])
  {
  }

  /** Both on commands name the device. */
  lemma OnCommandNames(d: Device)
    ensures Contains(OnCommand(d), IdxField(d.idx))
  {
    if d.switchType == "Dimmer" {
      ContainsMiddle("{\"command\": \"switchlight\", ", IdxField(d.idx),
        ", {%- if brightness is defined -%}\"switchcmd\": \"Set Level\", \"level\": ");
      ContainsExtend("{\"command\": \"switchlight\", " + IdxField(d.idx)
        + ", {%- if brightness is defined -%}\"switchcmd\": \"Set Level\", \"level\": ", IdxField(d.idx),
        "{{ brightness // 2.55}}{%- else -%}\"switchcmd\": \"On\"{%- endif -%} }");
    } else {
      ContainsMiddle("{\"command\": \"switchlight\", \"switchcmd\": \"On\", ", IdxField(d.idx), "}");
    }
  }

  /**
   * The light rule reports on/off messages of the device on the topic the
   * light entry listens to, and only a dimmer's entry reads a brightness.
   * The entry's on and off commands name the device.
   */
  lemma LightWiring(d: Device)
    ensures var r, c := LightRule(d), LightConfig(d);
      && StrField(r, "alias") == Some(d.idx + "_light")
      && ScopedTo(r, d.idx) && Mentions(Get(r, "condition").value, OnOffTest)
      && StrField(c, "state_topic") == PublishTopic(r) == Some(StatusTopic(d.idx, "light"))
      && PublishPayload(r) == Some(LightPayload)
      && Keys(c) == LightKeys + (if d.switchType == "Dimmer" then ["command_on_template", "brightness_template"]
                                 else ["command_on_template"])
      && StrField(c, "command_topic") == Some(InTopic)
      && StrField(c, "command_on_template") == Some(OnCommand(d))
      && Contains(OnCommand(d), IdxField(d.idx))
      && StrField(c, "command_off_template") == Some(SwitchCommand(d.idx, "Off"))
      && Contains(SwitchCommand(d.idx, "Off"), IdxField(d.idx))
  {
    GuardedRuleShape(d.idx + "_light", d.idx, OnOffTest, StatusTopic(d.idx, "light"), LightPayload);
    LightConfigFields(d);
    OnCommandNames(d);
    SwitchCommandNames(d.idx, "Off");
  }

  /** A dimmer's level messages are reported where its on/off messages are. */
  lemma DimmerWiring(d: Device)
    ensures var r := DimmerRule(d);
      && StrField(r, "alias") == Some(d.idx + "_dimmer")
      && ScopedTo(r, d.idx) && Mentions(Get(r, "condition").value, LevelTest)
      && PublishTopic(r) == PublishTopic(LightRule(d)) == StrField(LightConfig(d), "state_topic")
      && PublishPayload(r) == Some(DimmerPayload)
  {
    GuardedRuleShape(d.idx + "_dimmer", d.idx, LevelTest, StatusTopic(d.idx, "light"), DimmerPayload);
    LightWiring(d);
  }

  // Binary sensors

  const BinaryPayload := NvalueSwitch("1", "ON", "OFF")

  function BinarySensorRule(d: Device): Doc {
    ReportRule(d.idx + "_sensor", d.idx, StatusTopic(d.idx, "sensor"), BinaryPayload)
  }

  /** The device class for a switch type; any other type gets the text `None`. */
  function DeviceClass(switchType: string): (r: string)
    ensures r == "motion" <==> switchType == "Motion Sensor"
    ensures r == "opening" <==> switchType == "Door Contact" || switchType == "Contact"
    ensures r in {"motion", "opening", "None"}
  {
    if switchType == "Door Contact" then "opening"
    else if switchType == "Motion Sensor" then "motion"
    else if switchType == "Contact" then "opening"
    else "None"
  }

  function BinarySensorConfig(d: Device): Doc {
    [("name", Str(d.name)),
     Platform,
     ("state_topic", Str(StatusTopic(d.idx, "sensor"))),
     ("device_class", Str(DeviceClass(d.switchType)))]
  }

  /** The binary sensor entry listens where the rule reports the device's ON/OFF state. */
  lemma BinarySensorWiring(d: Device)
    ensures var r, c := BinarySensorRule(d), BinarySensorConfig(d);
      && StrField(r, "alias") == Some(d.idx + "_sensor")
      && ScopedTo(r, d.idx)
      && StrField(c, "state_topic") == PublishTopic(r) == Some(StatusTopic(d.idx, "sensor"))
      && PublishPayload(r) == Some(NvalueSwitch("1", "ON", "OFF"))
      && StrField(c, "device_class") == Some(DeviceClass(d.switchType))
  {
    ReportRuleShape(d.idx + "_sensor", d.idx, StatusTopic(d.idx, "sensor"), BinaryPayload);
    var c := BinarySensorConfig(d);
    Dict.GetIndex(c, 2);
    Dict.GetIndex(c, 3);
  }

  // Sensor entries shared by the temperature and power builders

  /** A sensor entry on device `idx`'s status topic. */
  function SensorConfig(name: string, idx: string, unit: string, template: string): Doc {
    [("name", Str(name)),
     Platform,
     ("state_topic", Str(StatusTopic(idx, "sensor"))),
     ("unit_of_measurement", Str(unit)),
     ("value_template", Str(template))]
  }

  lemma SensorConfigFields(name: string, idx: string, unit: string, template: string)
    ensures var c := SensorConfig(name, idx, unit, template);
      && StrField(c, "name") == Some(name)
      && StrField(c, "state_topic") == Some(StatusTopic(idx, "sensor"))
      && StrField(c, "unit_of_measurement") == Some(unit)
      && StrField(c, "value_template") == Some(template)
  {
    var c := SensorConfig(name, idx, unit, template);
    Dict.GetIndex(c, 2);
    Dict.GetIndex(c, 3);
    Dict.GetIndex(c, 4);
  }

  // kWh meters

  const KwhReading := ": {{ trigger.payload_json.svalue2|float / 1000 }}, "
  const UtilityPayload := "{" + Quoted("kwh") + KwhReading + Reading("watts", "svalue1") + " }"

  function UtilitySensorRule(d: Device): Doc {
    ReportRule(d.idx + "_kwh_sensor", d.idx, StatusTopic(d.idx, "sensor"), UtilityPayload)
  }

  function KwhConfig(d: Device): Doc {
    SensorConfig(d.name + "_kwh", d.idx, "kwh", "{{ value_json.kwh }}")
  }

  function WattsConfig(d: Device): Doc {
    SensorConfig(d.name + "_watts", d.idx, "watts", "{{ value_json.watts }}")
  }

  /**
   * Both power entries listen where the meter rule reports, and each reads a
   * field the rule's payload writes.
   */
  lemma PowerWiring(d: Device)
    ensures var r := UtilitySensorRule(d);
      && StrField(r, "alias") == Some(d.idx + "_kwh_sensor")
      && ScopedTo(r, d.idx)
      && StrField(KwhConfig(d), "state_topic") == PublishTopic(r) == Some(StatusTopic(d.idx, "sensor"))
      && StrField(WattsConfig(d), "state_topic") == PublishTopic(r)
      && StrField(KwhConfig(d), "value_template") == Some("{{ value_json.kwh }}")
      && StrField(WattsConfig(d), "value_template") == Some("{{ value_json.watts }}")
      && PublishPayload(r) == Some(UtilityPayload)
      && Contains(UtilityPayload, Quoted("kwh")) && Contains(UtilityPayload, Reading("watts", "svalue1"))
  {
    ReportRuleShape(d.idx + "_kwh_sensor", d.idx, StatusTopic(d.idx, "sensor"), UtilityPayload);
    SensorConfigFields(d.name + "_kwh", d.idx, "kwh", "{{ value_json.kwh }}");
    SensorConfigFields(d.name + "_watts", d.idx, "watts", "{{ value_json.watts }}");
    ContainsMiddle("{", Quoted("kwh"), KwhReading);
    ContainsExtend("{" + Quoted("kwh") + KwhReading, Quoted("kwh"), Reading("watts", "svalue1"));
    ContainsExtend("{" + Quoted("kwh") + KwhReading + Reading("watts", "svalue1"), Quoted("kwh"), " }");
    ContainsMiddle("{" + Quoted("kwh") + KwhReading, Reading("watts", "svalue1"), " }");
  }

  /** The utility-meter periods, in the order the meters are written. */
  const Durations := ["hourly", "daily", "weekly", "monthly", "quarterly"]

  function MeterKey(key: string, duration: string): string {
    key + "_" + duration + "_energy"
  }

  /** A meter that accumulates sensor `<key>_kwh` over one period. */
  function MeterEntry(key: string, duration: string): Value {
    Fields([("source", Str("sensor." + key + "_kwh")), ("cycle", Str(duration))])
  }

  /** No two periods give the same meter key. */
  lemma MeterKeysDistinct(key: string, i: nat, j: nat)
    requires i < j < |Durations|
    ensures MeterKey(key, Durations[i]) != MeterKey(key, Durations[j])
  {
    var a, b := MeterKey(key, Durations[i]), MeterKey(key, Durations[j]);
    if |a| == |b| {
      assert Durations[i] == "hourly" && Durations[j] == "weekly";
      assert a[|key| + 1] == 'h' && b[|key| + 1] == 'w';
    }
  }

  // Temperature, humidity, barometer and wind sensors

  /** The temperature reading as a float, converted to Fahrenheit when asked. */
  function TempExpr(v: string, toF: bool): string {
    FloatOf(v) + Tof(toF)
  }

  function FloatOf(v: string): string {
    "trigger.payload_json." + v + "|float"
  }

  /** One `"<key>": {{ <value> }}` member of a report payload. */
  function Reading(key: string, v: string): string {
    Quoted(key) + ": {{ trigger.payload_json." + v + " }}"
  }

  const TempTypes := ["Temp", "Temp + Humidity", "Temp + Humidity + Baro", "Wind"]

  /** The hub value a sensor type's temperature reading comes from: the wind chill for wind. */
  function TempSource(typ: string): string {
    if typ == "Wind" then "svalue6" else "svalue1"
  }

  /** A known type's payload up to its temperature reading ... */
  function PayloadOpen(typ: string): string {
    if typ == "Wind" then
      "{" + Reading("windspeed", "svalue3") + ", " + Reading("windgust", "svalue4") + ", "
      + Quoted("windchill") + ": {{ "
    else "{" + Quoted("temperature") + ": {{ "
  }

  /** ... and after it. */
  function PayloadClose(typ: string): string {
    if typ == "Temp + Humidity" then " }}, " + Reading("humidity", "svalue2") + " }"
    else if typ == "Temp" then " }} }"
    else if typ == "Temp + Humidity + Baro" then
      " }}, " + Reading("humidity", "svalue2") + ", " + Reading("barometer", "svalue4") + " }"
    else " }}, " + Quoted("direction") + ": \"{{ trigger.payload_json.svalue2 }}\" }"
  }

  /** The report payload for a sensor type; none for a type the generator does not know. */
  function SensorPayload(typ: string, toF: bool): (r: Option<string>)
    ensures r.Some? <==> typ in TempTypes
  {
    if typ in TempTypes then Some(PayloadOpen(typ) + TempExpr(TempSource(typ), toF) + PayloadClose(typ))
    else None
  }

  /** The report rule of a temperature-class device, or none for an unknown type. */
  function TempSensorRule(d: Device, toF: bool): (r: Option<Doc>)
    ensures r.Some? <==> d.typ in TempTypes
  {
    match SensorPayload(d.typ, toF)
    case Some(p) => Some(ReportRule(d.idx + "_sensor", d.idx, StatusTopic(d.idx, "sensor"), p))
    case None => None
  }

  /**
   * Reporting in Fahrenheit changes a payload only by ` * 1.8 + 32` right
   * after the float reading of the temperature (the wind chill for a wind
   * sensor).
   */
  lemma FahrenheitInserted(typ: string) returns (pre: string, post: string)
    requires typ in TempTypes
    ensures SensorPayload(typ, false) == Some(pre + post)
    ensures SensorPayload(typ, true) == Some(pre + " * 1.8 + 32" + post)
    ensures |pre| >= 6 && pre[|pre| - 6..] == "|float"
  {
    pre, post := PayloadOpen(typ) + FloatOf(TempSource(typ)), PayloadClose(typ);
    var o, f := PayloadOpen(typ), FloatOf(TempSource(typ));
    assert o + (f + "") == pre;
    assert o + (f + " * 1.8 + 32") == pre + " * 1.8 + 32";
  }

  /**
   * A wind payload reports speed from `svalue3`, gust from `svalue4`, the
   * chill from `svalue6` read as a float and the direction from `svalue2`.
   */
  lemma WindReadings(toF: bool)
    ensures var p := SensorPayload("Wind", toF).value;
      && Contains(p, Reading("windspeed", "svalue3"))
      && Contains(p, Reading("windgust", "svalue4"))
      && Contains(p, Quoted("windchill") + ": {{ " + FloatOf("svalue6"))
      && Contains(p, Quoted("direction") + ": \"{{ trigger.payload_json.svalue2 }}\"")
  {
    var o, e, c := PayloadOpen("Wind"), TempExpr("svalue6", toF), PayloadClose("Wind");
    var speed, gust := Reading("windspeed", "svalue3"), Reading("windgust", "svalue4");
    var chill := Quoted("windchill") + ": {{ " + FloatOf("svalue6");
    var dir := Quoted("direction") + ": \"{{ trigger.payload_json.svalue2 }}\"";
    WindOpening();
    ContainsExtend(o, speed, e);
    ContainsExtend(o, gust, e);
    ContainsExtend(o + e, speed, c);
    ContainsExtend(o + e, gust, c);
    WindChill(toF);
    ContainsExtend(o + e, chill, c);
    WindClosing();
    ContainsExtend(c, dir, o + e);
  }

  lemma WindOpening()
    ensures Contains(PayloadOpen("Wind"), Reading("windspeed", "svalue3"))
    ensures Contains(PayloadOpen("Wind"), Reading("windgust", "svalue4"))
  {
    var speed, gust := Reading("windspeed", "svalue3"), Reading("windgust", "svalue4");
    var a := "{" + speed + ", " + gust + ", ";
    ContainsMiddle("{", speed, ", ");
    ContainsExtend("{" + speed + ", ", speed, gust);
    ContainsExtend("{" + speed + ", " + gust, speed, ", ");
    ContainsMiddle("{" + speed + ", ", gust, ", ");
    ContainsExtend(a, speed, Quoted("windchill"));
    ContainsExtend(a, gust, Quoted("windchill"));
    ContainsExtend(a + Quoted("windchill"), speed, ": {{ ");
    ContainsExtend(a + Quoted("windchill"), gust, ": {{ ");
  }

  lemma WindChill(toF: bool)
    ensures Contains(PayloadOpen("Wind") + TempExpr("svalue6", toF), Quoted("windchill") + ": {{ " + FloatOf("svalue6"))
  {
    var a := "{" + Reading("windspeed", "svalue3") + ", " + Reading("windgust", "svalue4") + ", ";
    var q, b, f, t := Quoted("windchill"), ": {{ ", FloatOf("svalue6"), Tof(toF);
    assert PayloadOpen("Wind") == a + q + b;
    AppendAssoc(a + q + b, f, t);
    AppendAssoc(a, q, b);
    AppendAssoc(a, q + b, f);
    ContainsMiddle(a, q + b + f, t);
  }

  lemma WindClosing()
    ensures Contains(PayloadClose("Wind"), Quoted("direction") + ": \"{{ trigger.payload_json.svalue2 }}\"")
  {
    var dir := Quoted("direction") + ": \"{{ trigger.payload_json.svalue2 }}\"";
    assert PayloadClose("Wind") == " }}, " + dir + " }";
    ContainsMiddle(" }}, ", dir, " }");
  }

  /** The temperature rule reports on the device's sensor status topic. */
  lemma TempSensorRuleWiring(d: Device, toF: bool)
    requires d.typ in TempTypes
    ensures var r := TempSensorRule(d, toF).value;
      && Keys(r) == RuleKeys
      && StrField(r, "alias") == Some(d.idx + "_sensor")
      && ScopedTo(r, d.idx)
      && PublishTopic(r) == Some(StatusTopic(d.idx, "sensor"))
      && PublishPayload(r) == SensorPayload(d.typ, toF)
  {
    ReportRuleShape(d.idx + "_sensor", d.idx, StatusTopic(d.idx, "sensor"), SensorPayload(d.typ, toF).value);
  }

  /** The unit of a temperature entry. */
  function TempUnit(toF: bool): string {
    if toF then "F" else "C"
  }

  /** One sensor entry of a device: the suffix of its name, its unit and its value template. */
  datatype SensorSpec = SensorSpec(suffix: string, unit: string, template: string)

  /**
   * The entries `GenTempSensorList` writes: a temperature entry when the
   * type mentions `Temp`, a humidity entry when it mentions `Humidity`, a
   * barometer entry for the barometric type, four entries for wind.
   */
  function TempSensorSpecs(typ: string, toF: bool): seq<SensorSpec> {
    TemperatureSpecs(typ, toF) + HumiditySpecs(typ) + BarometerSpecs(typ) + WindSpecs(typ, toF)
  }

  function TemperatureSpec(toF: bool): SensorSpec {
    SensorSpec("_temperature", TempUnit(toF), "{{ value_json.temperature }}")
  }
  const HumiditySpec := SensorSpec("_humidity", "%", "{{ value_json.humidity }}")
  const BarometerSpec := SensorSpec("_barometer", "hPa", "{{ value_json.barometer}}")
  const WindSpeedSpec := SensorSpec("_windspeed", "speed", "{{ value_json.windspeed }}")
  const WindGustSpec := SensorSpec("_windgust", "gust", "{{ value_json.windgust }}")
  function WindChillSpec(toF: bool): SensorSpec {
    SensorSpec("_windchill", TempUnit(toF), "{{ value_json.windchill }}")
  }
  const DirectionSpec := SensorSpec("_direction", "dir", "{{ value_json.direction }}")

  function TemperatureSpecs(typ: string, toF: bool): seq<SensorSpec> {
    if Contains(typ, "Temp") then [TemperatureSpec(toF)] else []
  }

  function HumiditySpecs(typ: string): seq<SensorSpec> {
    if Contains(typ, "Humidity") then [HumiditySpec] else []
  }

  function BarometerSpecs(typ: string): seq<SensorSpec> {
    if typ == "Temp + Humidity + Baro" then [BarometerSpec] else []
  }

  function WindSpecs(typ: string, toF: bool): seq<SensorSpec> {
    if typ == "Wind" then [WindSpeedSpec, WindGustSpec, WindChillSpec(toF), DirectionSpec] else []
  }

  function SpecConfig(d: Device, sp: SensorSpec): Doc {
    SensorConfig(d.name + sp.suffix, d.idx, sp.unit, sp.template)
  }

  function SpecConfigs(d: Device, specs: seq<SensorSpec>): (r: seq<Doc>)
    ensures |r| == |specs|
    ensures forall i :: 0 <= i < |specs| ==> r[i] == SpecConfig(d, specs[i])
  {
    if specs == [] then [] else SpecConfigs(d, specs[..|specs| - 1]) + [SpecConfig(d, specs[|specs| - 1])]
  }

  function SpecNames(d: Device, specs: seq<SensorSpec>): (r: seq<string>)
    ensures |r| == |specs|
    ensures forall i :: 0 <= i < |specs| ==> r[i] == d.name + specs[i].suffix
  {
    if specs == [] then [] else SpecNames(d, specs[..|specs| - 1]) + [d.name + specs[|specs| - 1].suffix]
  }

  /** Entries and names of a concatenation of specs are the concatenations. */
  lemma SpecsAppend(d: Device, a: seq<SensorSpec>, b: seq<SensorSpec>)
    ensures SpecConfigs(d, a + b) == SpecConfigs(d, a) + SpecConfigs(d, b)
    ensures SpecNames(d, a + b) == SpecNames(d, a) + SpecNames(d, b)
  {
    ConfigsAppend(d, a, b);
    NamesAppend(d, a, b);
  }

  lemma {:induction false} ConfigsAppend(d: Device, a: seq<SensorSpec>, b: seq<SensorSpec>)
    ensures SpecConfigs(d, a + b) == SpecConfigs(d, a) + SpecConfigs(d, b)
  {
    if b == [] {
      assert a + b == a;
    } else {
      var init, last := b[..|b| - 1], b[|b| - 1];
      assert (a + b)[..|a + b| - 1] == a + init;
      ConfigsAppend(d, a, init);
      assert SpecConfigs(d, a + b) == SpecConfigs(d, a + init) + [SpecConfig(d, last)];
      assert SpecConfigs(d, b) == SpecConfigs(d, init) + [SpecConfig(d, last)];
    }
  }

  lemma {:induction false} NamesAppend(d: Device, a: seq<SensorSpec>, b: seq<SensorSpec>)
    ensures SpecNames(d, a + b) == SpecNames(d, a) + SpecNames(d, b)
  {
    if b == [] {
      assert a + b == a;
    } else {
      var init, last := b[..|b| - 1], b[|b| - 1];
      assert (a + b)[..|a + b| - 1] == a + init;
      NamesAppend(d, a, init);
      assert SpecNames(d, a + b) == SpecNames(d, a + init) + [d.name + last.suffix];
      assert SpecNames(d, b) == SpecNames(d, init) + [d.name + last.suffix];
    }
  }

  /** The same for four pieces. */
  lemma SpecsAppend4(d: Device, a: seq<SensorSpec>, b: seq<SensorSpec>, c: seq<SensorSpec>, e: seq<SensorSpec>)
    ensures SpecConfigs(d, a + b + c + e) == SpecConfigs(d, a) + SpecConfigs(d, b) + SpecConfigs(d, c) + SpecConfigs(d, e)
    ensures SpecNames(d, a + b + c + e) == SpecNames(d, a) + SpecNames(d, b) + SpecNames(d, c) + SpecNames(d, e)
  {
    SpecsAppend(d, a, b);
    SpecsAppend(d, a + b, c);
    SpecsAppend(d, a + b + c, e);
  }

  function TempSensorDocs(d: Device, toF: bool): (r: seq<Doc>)
    ensures |r| == |TempSensorSpecs(d.typ, toF)|
  {
    SpecConfigs(d, TempSensorSpecs(d.typ, toF))
  }

  /** The names of a device's temperature-class entries, in order. */
  function TempSensorNames(d: Device, toF: bool): (r: seq<string>)
    ensures |r| == |TempSensorSpecs(d.typ, toF)|
  {
    SpecNames(d, TempSensorSpecs(d.typ, toF))
  }

  /**
   * Every temperature-class entry of a device is named after it and listens
   * on its sensor status topic, where its temperature rule (when it has
   * one) reports.
   */
  lemma TempSensorsWiring(d: Device, toF: bool)
    ensures var docs := TempSensorDocs(d, toF);
      forall i :: 0 <= i < |docs| ==>
        && StrField(docs[i], "name") == Some(TempSensorNames(d, toF)[i])
        && StrField(docs[i], "state_topic") == Some(StatusTopic(d.idx, "sensor"))
        && (d.typ in TempTypes ==> StrField(docs[i], "state_topic") == PublishTopic(TempSensorRule(d, toF).value))
  {
    var docs := TempSensorDocs(d, toF);
    var specs := TempSensorSpecs(d.typ, toF);
    if d.typ in TempTypes {
      TempSensorRuleWiring(d, toF);
    }
    forall i | 0 <= i < |docs|
      ensures StrField(docs[i], "name") == Some(d.name + specs[i].suffix)
      ensures StrField(docs[i], "state_topic") == Some(StatusTopic(d.idx, "sensor"))
    {
      SensorConfigFields(d.name + specs[i].suffix, d.idx, specs[i].unit, specs[i].template);
    }
  }

  /** One entry for `Temp`, two for `Temp + Humidity`, three for the barometric type, four for `Wind`. */
  lemma TempSensorCount(typ: string, toF: bool)
    requires typ in TempTypes
    ensures |TempSensorSpecs(typ, toF)| ==
      if typ == "Temp" then 1 else if typ == "Temp + Humidity" then 2 else if typ == "Wind" then 4 else 3
  {
    TypeMentions(typ);
  }

  /** Which of the known sensor types mention `Temp` and `Humidity`. */
  lemma TypeMentions(typ: string)
    requires typ in TempTypes
    ensures Contains(typ, "Temp") <==> typ != "Wind"
    ensures Contains(typ, "Humidity") <==> typ == "Temp + Humidity" || typ == "Temp + Humidity + Baro"
  {
    if typ == "Wind" {
      NotInWind();
    } else if typ == "Temp" {
      assert StartsWith(typ, "Temp");
      ContainsShorter(typ, "Humidity");
    } else if typ == "Temp + Humidity" {
      assert typ == "Temp + Humidity" + "";
      HumidityIn("");
    } else {
      assert typ == "Temp + Humidity" + " + Baro";
      HumidityIn(" + Baro");
    }
  }

  lemma NotInWind()
    ensures !Contains("Wind", "Temp") && !Contains("Wind", "Humidity")
  {
    ContainsShorter("Wind", "Humidity");
    ContainsShorter("Wind"[1..], "Temp");
    assert !StartsWith("Wind", "Temp") by { assert "Wind"[0] != "Temp"[0]; }
  }

  lemma HumidityIn(rest: string)
    ensures Contains("Temp + Humidity" + rest, "Temp") && Contains("Temp + Humidity" + rest, "Humidity")
  {
    var s := "Temp + Humidity" + rest;
    assert s[..4] == "Temp";
    assert s[7..15] == "Humidity";
    ContainsAt(s, "Humidity", 7);
  }

  // The startup rule

  /** The hub command asking device `idx` to report its state. */
  function QueryPayload(idx: string): string {
    "{\"command\": \"getdeviceinfo\", \"idx\": " + idx + " }"
  }

  function QueryAction(d: Device): Value {
    Publish(InTopic, QueryPayload(d.idx))
  }

  /** One query action per device, in device order. */
  function QueryActions(devs: seq<Device>): (r: seq<Value>)
    ensures |r| == |devs|
  {
    seq(|devs|, i requires 0 <= i < |devs| => QueryAction(devs[i]))
  }

  /** The loop that builds the startup rule's actions. */
  method GenAllDeviceQueryActions(devs: seq<Device>) returns (r: seq<Value>)
    ensures |r| == |devs|
    ensures forall i :: 0 <= i < |devs| ==> r[i] == Publish(InTopic, QueryPayload(devs[i].idx))
  {
    r := [];
    for i := 0 to |devs|
      invariant |r| == i
      invariant forall j :: 0 <= j < i ==> r[j] == Publish(InTopic, QueryPayload(devs[j].idx))
    {
      r := r + [Publish(InTopic, QueryPayload(devs[i].idx))];
    }
  }

  function StartupRule(devs: seq<Device>): Doc {
    [("alias", Str("prime_domoticz_devices")),
     ("trigger", Fields([("platform", Str("homeassistant")), ("event", Str("start"))])),
     ("action", Items(QueryActions(devs)))]
  }

  /** At start-up the rule asks every device, in device order, to report. */
  method GenStartupAutomation(devs: seq<Device>) returns (r: Doc)
    ensures r == StartupRule(devs)
    ensures Keys(r) == ["alias", "trigger", "action"]
    ensures Get(r, "action") == Some(Items(QueryActions(devs)))
  {
    var actions := GenAllDeviceQueryActions(devs);
    assert actions == QueryActions(devs);
    r := [("alias", Str("prime_domoticz_devices")),
          ("trigger", Fields([("platform", Str("homeassistant")), ("event", Str("start"))])),
          ("action", Items(actions))];
    Dict.GetIndex(r, 2);
  }
}
