/**
 * The climate entry and the automation rules GetThermostats writes for one
 * cluster: a block of fields and rules per populated role slot, in the
 * order temperature, heating setpoint, mode, operating state, fan mode.
 */
module Climate {
  import opened Wrappers
  import opened Strings
  import opened Docs
  import Dict
  import opened ModeMaps
  import opened Clusters

  /** A slot counts as populated when it holds a non-empty idx (Python truthiness). */
  predicate Populated(o: Option<string>) {
    o.Some? && o.value != ""
  }

  /** An idx as `'{}'.format` writes it: an absent one prints as `None`. */
  function IdxText(o: Option<string>): string {
    if o.Some? then o.value else "None"
  }

  /** `domoticz/<dir>/climate/<idx>/<leaf>`. */
  function ClimateTopic(dir: string, idx: string, leaf: string): string {
    "domoticz/" + dir + "/climate/" + idx + "/" + leaf
  }

  const MaxTemp := "78"
  const MinTemp := "52"

  /** A rule that re-reports one member's hub messages on a climate topic. */
  function StateRule(alias: string, idx: string, topic: string, payload: string): Doc {
    [("alias", Str(alias)),
     ("trigger", MqttTrigger(OutTopic)),
     ("condition", Items([TemplateCondition(IdxTest(idx))])),
     ("action", Items([PublishPayloadFirst(payload, topic)]))]
  }

  /** A rule that forwards a climate command topic to the hub's input topic. */
  function CommandRule(alias: string, command: string, payload: string): Doc {
    [("alias", Str(alias)),
     ("trigger", MqttTrigger(command)),
     ("action", Items([PublishPayloadFirst(payload, InTopic)]))]
  }

  lemma StateRuleShape(alias: string, idx: string, topic: string, payload: string)
    ensures var r := StateRule(alias, idx, topic, payload);
      && Keys(r) == RuleKeys
      && StrField(r, "alias") == Some(alias)
      && TriggerTopic(r) == Some(OutTopic)
      && ScopedTo(r, idx)
      && PublishTopic(r) == Some(topic)
      && PublishPayload(r) == Some(payload)
  {
    var r := StateRule(alias, idx, topic, payload);
    Dict.GetIndex(r, 0);
    Dict.GetIndex(r, 1);
    Dict.GetIndex(r, 2);
    Dict.GetIndex(r, 3);
    var c := Items([TemplateCondition(IdxTest(idx))]);
    assert Mentions(TemplateCondition(IdxTest(idx)).entries[1].1, IdxTest(idx));
    assert Mentions(c.elems[0], IdxTest(idx));
    Dict.GetIndex(MqttTrigger(OutTopic).entries, 1);
    var dt := [("payload_template", Str(payload)), ("topic", Str(topic))];
    Dict.GetIndex(PublishPayloadFirst(payload, topic).entries, 1);
    Dict.GetIndex(dt, 0);
    Dict.GetIndex(dt, 1);
  }

  /** A command rule has no condition: it fires on every message of its command topic. */
  lemma CommandRuleShape(alias: string, command: string, payload: string)
    ensures var r := CommandRule(alias, command, payload);
      && Keys(r) == ["alias", "trigger", "action"]
      && StrField(r, "alias") == Some(alias)
      && TriggerTopic(r) == Some(command)
      && Get(r, "condition") == None
      && PublishTopic(r) == Some(InTopic)
      && PublishPayload(r) == Some(payload)
  {
    var r := CommandRule(alias, command, payload);
    Dict.GetIndex(r, 0);
    Dict.GetIndex(r, 1);
    Dict.GetIndex(r, 2);
    Dict.GetNone(r, "condition");
    Dict.GetIndex(MqttTrigger(command).entries, 1);
    var dt := [("payload_template", Str(payload)), ("topic", Str(InTopic))];
    Dict.GetIndex(PublishPayloadFirst(payload, InTopic).entries, 1);
    Dict.GetIndex(dt, 0);
    Dict.GetIndex(dt, 1);
  }

  // ---- payload templates (Jinja text, never evaluated here)

  function TempPayload(toF: bool): string {
    "{{ trigger.payload_json.svalue1|float " + Tof(toF) + " }}"
  }

  /** Above `max_temp` the converted value is taken to be wrong and the raw value is passed on. */
  const PassThrough := "{% if ctof > max_temp %}{{ trigger.payload_json.svalue1|float }}{% else %}{{ ctof }}{% endif %}"

  function SetpointPayload(toF: bool): string {
    "{% set max_temp = " + MaxTemp + " %}"
    + "{% set ctof = trigger.payload_json.svalue1|float " + Tof(toF) + " %}"
    + PassThrough
  }

  /** The hub command that sets the setpoint to the value received, not converted back. */
  function SetpointCommand(idx: string): string {
    "{\"idx\": " + idx + ", \"svalue\": \"{{ trigger.payload_json }}\" } "
  }

  /** One `"k": "v"` entry of a template map literal. */
  function MapEntry(k: string, v: string): string {
    "\"" + k + "\": \"" + v + "\""
  }

  function MapLiteral(pairs: seq<(string, string)>): string {
    JoinAll(seq(|pairs|, i requires 0 <= i < |pairs| => MapEntry(pairs[i].0, pairs[i].1)), ',')
  }

  /** The label-to-code table with each code written in decimal. */
  function CodeEntries(codeOf: Dict.Dict<string, nat>): (r: seq<(string, string)>)
    ensures |r| == |codeOf|
    ensures forall i :: 0 <= i < |r| ==> r[i].0 == codeOf[i].0
  {
    seq(|codeOf|, i requires 0 <= i < |codeOf| => (codeOf[i].0, NatToString(codeOf[i].1)))
  }

  /** Each code written into a command map reads back as the code stored. */
  lemma CodeEntriesParse(codeOf: Dict.Dict<string, nat>)
    ensures forall i :: 0 <= i < |codeOf| ==> ParseNat(CodeEntries(codeOf)[i].1) == Some(codeOf[i].1)
  {
    forall i | 0 <= i < |codeOf| ensures ParseNat(CodeEntries(codeOf)[i].1) == Some(codeOf[i].1) {
      NatToStringRoundTrip(codeOf[i].1);
    }
  }

  /** Translates the hub's numeric state to a label through the code-to-label table. */
  function ModeReport(labelOf: Dict.Dict<string, string>): string {
    "{% with mode_map={" + MapLiteral(labelOf) + "} %}"
    + "{{ mode_map[trigger.payload_json.nvalue|string] }}"
    + "{% endwith %}"
  }

  /** Translates a requested label to the hub command for device `idxText`. */
  function ModeCommand(codeOf: Dict.Dict<string, nat>, idxText: string): string {
    "{% with mode_map={" + MapLiteral(CodeEntries(codeOf)) + "} %}"
    + "{ \"idx\": " + idxText + ", \"nvalue\": {{ mode_map[trigger.payload] }} }"
    + "{% endwith %}"
  }

  const ActionPayload := "{% with mode_map={\"0\": \"off\", \"1\": \"cooling\", \"2\": \"heating\"} %}{{ mode_map[trigger.payload_json.nvalue|string] }}{% endwith %}"

  function LabelList(codeOf: Dict.Dict<string, nat>): Value {
    Items(seq(|codeOf|, i requires 0 <= i < |codeOf| => Str(codeOf[i].0)))
  }

  // ---- role blocks

  /** The climate fields and the rules one role slot contributes. */
  datatype Block = Block(fields: Doc, rules: seq<Doc>)

  const NoBlock := Block([], [])

  const TempKeys := ["current_temperature_topic"]
  const SetpointKeys := ["temperature_state_topic", "temperature_command_topic", "max_temp", "min_temp"]
  const ModeKeys := ["mode_state_topic", "mode_command_topic", "modes"]
  const ActionKeys := ["action_topic"]
  const FanKeys := ["fan_mode_state_topic", "fan_mode_command_topic", "fan_modes"]
  const BaseKeys := ["platform", "name", "send_if_off"]

  function TempBlock(s: Slots, toF: bool): (b: Block)
    ensures |b.rules| == Count(Populated(s.tIdx), 1)
    ensures Keys(b.fields) == if Populated(s.tIdx) then TempKeys else []
  {
    if !Populated(s.tIdx) then NoBlock
    else
      var idx := s.tIdx.value;
      var topic := ClimateTopic("out", idx, "temp");
      Block([("current_temperature_topic", Str(topic))],
            [StateRule(idx + "_climate_temp", idx, topic, TempPayload(toF))])
  }

  function SetpointBlock(s: Slots, toF: bool): (b: Block)
    ensures |b.rules| == Count(Populated(s.hsetIdx), 2)
    ensures Keys(b.fields) == if Populated(s.hsetIdx) then SetpointKeys else []
  {
    if !Populated(s.hsetIdx) then NoBlock
    else
      var idx := s.hsetIdx.value;
      var state, command := ClimateTopic("out", idx, "target"), ClimateTopic("in", idx, "set");
      Block([("temperature_state_topic", Str(state)),
             ("temperature_command_topic", Str(command)),
             ("max_temp", Str(MaxTemp)),
             ("min_temp", Str(MinTemp))],
            [StateRule(idx + "_target_temp", idx, state, SetpointPayload(toF)),
             CommandRule(idx + "_target_temp_set", command, SetpointCommand(idx))])
  }

  function ModeBlock(s: Slots): (b: Block)
    ensures |b.rules| == Count(Populated(s.tmodeIdx), 2)
    ensures Keys(b.fields) == if Populated(s.tmodeIdx) then ModeKeys else []
  {
    if !Populated(s.tmodeIdx) then NoBlock
    else
      var idx := s.tmodeIdx.value;
      var state, command := ClimateTopic("out", idx, "mode"), ClimateTopic("in", idx, "mode");
      Block([("mode_state_topic", Str(state)),
             ("mode_command_topic", Str(command)),
             ("modes", LabelList(s.tModes.codeOf))],
            [StateRule(idx + "_state", idx, state, ModeReport(s.tModes.labelOf)),
             CommandRule(idx + "_state_set", command, ModeCommand(s.tModes.codeOf, IdxText(s.tmodeIdx)))])
  }

  function ActionBlock(s: Slots): (b: Block)
    ensures |b.rules| == Count(Populated(s.tstateIdx), 1)
    ensures Keys(b.fields) == if Populated(s.tstateIdx) then ActionKeys else []
  {
    if !Populated(s.tstateIdx) then NoBlock
    else
      var idx := s.tstateIdx.value;
      var topic := ClimateTopic("out", idx, "action");
      Block([("action_topic", Str(topic))], [StateRule(idx + "_action", idx, topic, ActionPayload)])
  }

  /**
   * The fan block reuses the `/mode` topics and the `_state` aliases, and its
   * command rule addresses the thermostat-mode device, not the fan device.
   */
  function FanBlock(s: Slots): (b: Block)
    ensures |b.rules| == Count(Populated(s.fmodeIdx), 2)
    ensures Keys(b.fields) == if Populated(s.fmodeIdx) then FanKeys else []
  {
    if !Populated(s.fmodeIdx) then NoBlock
    else
      var idx := s.fmodeIdx.value;
      var state, command := ClimateTopic("out", idx, "mode"), ClimateTopic("in", idx, "mode");
      Block([("fan_mode_state_topic", Str(state)),
             ("fan_mode_command_topic", Str(command)),
             ("fan_modes", LabelList(s.fModes.codeOf))],
            [StateRule(idx + "_state", idx, state, ModeReport(s.fModes.labelOf)),
             CommandRule(idx + "_state_set", command, ModeCommand(s.fModes.codeOf, IdxText(s.tmodeIdx)))])
  }

  /** The three fields every climate entry starts with. */
  function BaseFields(name: string): (r: Doc)
    ensures Keys(r) == BaseKeys
  {
    [("platform", Str("mqtt")), ("name", Str(name)), ("send_if_off", Str("true"))]
  }

  /** The climate entry of a cluster. */
  function ClimateDoc(name: string, s: Slots, toF: bool): Doc {
    BaseFields(name) + TempBlock(s, toF).fields + SetpointBlock(s, toF).fields + ModeBlock(s).fields
    + ActionBlock(s).fields + FanBlock(s).fields
  }

  /** The automation rules of a cluster. */
  function ClimateRules(s: Slots, toF: bool): seq<Doc> {
    TempBlock(s, toF).rules + SetpointBlock(s, toF).rules + ModeBlock(s).rules
    + ActionBlock(s).rules + FanBlock(s).rules
  }

  function Count(b: bool, n: nat): nat {
    if b then n else 0
  }

  /** Rule counts per role: temperature 1, setpoint 2, mode 2, operating state 1, fan 2. */
  lemma RuleCount(s: Slots, toF: bool)
    ensures |ClimateRules(s, toF)|
         == Count(Populated(s.tIdx), 1) + Count(Populated(s.hsetIdx), 2) + Count(Populated(s.tmodeIdx), 2)
          + Count(Populated(s.tstateIdx), 1) + Count(Populated(s.fmodeIdx), 2)
  {
  }

  /** The topic fields appear only for populated roles, in role order, after the three fixed fields. */
  lemma ClimateKeys(name: string, s: Slots, toF: bool)
    ensures Keys(ClimateDoc(name, s, toF))
         == BaseKeys
          + (if Populated(s.tIdx) then TempKeys else [])
          + (if Populated(s.hsetIdx) then SetpointKeys else [])
          + (if Populated(s.tmodeIdx) then ModeKeys else [])
          + (if Populated(s.tstateIdx) then ActionKeys else [])
          + (if Populated(s.fmodeIdx) then FanKeys else [])
  {
    var base := BaseFields(name);
    var t, sp, m, o, f := TempBlock(s, toF).fields, SetpointBlock(s, toF).fields, ModeBlock(s).fields,
                          ActionBlock(s).fields, FanBlock(s).fields;
    KeysAppend(base, t);
    KeysAppend(base + t, sp);
    KeysAppend(base + t + sp, m);
    KeysAppend(base + t + sp + m, o);
    KeysAppend(base + t + sp + m + o, f);
  }

  lemma KeysAppend(a: Doc, b: Doc)
    ensures Keys(a + b) == Keys(a) + Keys(b)
  {
  }

  /**
   * Entry `i` of a block is what the fields so far hold under its key when
   * no field before the block and no earlier entry of the block has that key.
   */
  lemma BlockField(before: Doc, b: Doc, ks: seq<string>, i: nat)
    requires Keys(b) == ks && i < |ks| && ks[i] !in Keys(before)
    requires forall j :: 0 <= j < i ==> ks[j] != ks[i]
    ensures b[i].0 == ks[i] && ks[i] in Keys(before + b) && Get(before + b, ks[i]) == Some(b[i].1)
  {
    assert b[i].0 == Keys(b)[i];
    forall j | 0 <= j < i ensures b[j].0 != b[i].0 {
      assert b[j].0 == Keys(b)[j];
    }
    Dict.GetAppend(before, b, ks[i]);
    Dict.GetIndex(b, i);
    KeysAppend(before, b);
  }

  /** Fields appended later do not change what an earlier key is read as. */
  lemma GetPrefix(a: Doc, b: Doc, k: string)
    requires k in Keys(a)
    ensures k in Keys(a + b) && Get(a + b, k) == Get(a, k)
  {
    Dict.GetAppend(a, b, k);
    KeysAppend(a, b);
  }

  /** The entry's name field is the name it was given. */
  lemma ClimateNameField(name: string, s: Slots, toF: bool)
    ensures StrField(ClimateDoc(name, s, toF), "name") == Some(name)
  {
    var base := BaseFields(name);
    var t, sp, m, o, f := TempBlock(s, toF).fields, SetpointBlock(s, toF).fields, ModeBlock(s).fields,
                          ActionBlock(s).fields, FanBlock(s).fields;
    BlockField([], base, BaseKeys, 1);
    assert [] + base == base;
    GetPrefix(base, t, "name");
    GetPrefix(base + t, sp, "name");
    GetPrefix(base + t + sp, m, "name");
    GetPrefix(base + t + sp + m, o, "name");
    GetPrefix(base + t + sp + m + o, f, "name");
  }

  /**
   * The temperature rule reports member `idx` on the topic the climate entry
   * reads the current temperature from, converted only when asked.
   */
  lemma TempWiring(name: string, s: Slots, toF: bool)
    requires Populated(s.tIdx)
    ensures var c, rs := ClimateDoc(name, s, toF), TempBlock(s, toF).rules;
      && |rs| == 1
      && ScopedTo(rs[0], s.tIdx.value) && TriggerTopic(rs[0]) == Some(OutTopic)
      && PublishTopic(rs[0]) == StrField(c, "current_temperature_topic")
      && PublishPayload(rs[0]) == Some("{{ trigger.payload_json.svalue1|float " + Tof(toF) + " }}")
  {
    var idx := s.tIdx.value;
    var topic := ClimateTopic("out", idx, "temp");
    StateRuleShape(idx + "_climate_temp", idx, topic, TempPayload(toF));
    var base := BaseFields(name);
    var t, sp, m, o, f := TempBlock(s, toF).fields, SetpointBlock(s, toF).fields, ModeBlock(s).fields,
                          ActionBlock(s).fields, FanBlock(s).fields;
    var k := "current_temperature_topic";
    BlockField(base, t, TempKeys, 0);
    GetPrefix(base + t, sp, k);
    GetPrefix(base + t + sp, m, k);
    GetPrefix(base + t + sp + m, o, k);
    GetPrefix(base + t + sp + m + o, f, k);
  }

  /**
   * The setpoint rules: one reports member `idx` on the climate entry's
   * state topic, the other forwards its command topic to the hub. The report
   * template caps at the same `max_temp` the entry declares, and above it
   * passes the raw value through.
   */
  lemma SetpointWiring(name: string, s: Slots, toF: bool)
    requires Populated(s.hsetIdx)
    ensures var c, rs := ClimateDoc(name, s, toF), SetpointBlock(s, toF).rules;
      && |rs| == 2
      && ScopedTo(rs[0], s.hsetIdx.value) && TriggerTopic(rs[0]) == Some(OutTopic)
      && PublishTopic(rs[0]) == StrField(c, "temperature_state_topic")
      && TriggerTopic(rs[1]) == StrField(c, "temperature_command_topic")
      && PublishTopic(rs[1]) == Some(InTopic)
      && StrField(c, "max_temp") == Some(MaxTemp) && StrField(c, "min_temp") == Some(MinTemp)
      && PublishPayload(rs[0]).Some?
      && StartsWith(PublishPayload(rs[0]).value, "{% set max_temp = " + MaxTemp + " %}")
      && Contains(PublishPayload(rs[0]).value, PassThrough)
  {
    var idx := s.hsetIdx.value;
    var state, command := ClimateTopic("out", idx, "target"), ClimateTopic("in", idx, "set");
    StateRuleShape(idx + "_target_temp", idx, state, SetpointPayload(toF));
    CommandRuleShape(idx + "_target_temp_set", command, SetpointCommand(idx));
    SetpointTopicFields(name, s, toF);
    SetpointRangeFields(name, s, toF);
    SetpointPayloadShape(toF);
  }

  lemma SetpointTopicFields(name: string, s: Slots, toF: bool)
    requires Populated(s.hsetIdx)
    ensures var c, idx := ClimateDoc(name, s, toF), s.hsetIdx.value;
      && StrField(c, "temperature_state_topic") == Some(ClimateTopic("out", idx, "target"))
      && StrField(c, "temperature_command_topic") == Some(ClimateTopic("in", idx, "set"))
  {
    SetpointField(name, s, toF, 0);
    SetpointField(name, s, toF, 1);
  }

  lemma SetpointRangeFields(name: string, s: Slots, toF: bool)
    requires Populated(s.hsetIdx)
    ensures var c := ClimateDoc(name, s, toF);
      StrField(c, "max_temp") == Some(MaxTemp) && StrField(c, "min_temp") == Some(MinTemp)
  {
    SetpointField(name, s, toF, 2);
    SetpointField(name, s, toF, 3);
  }

  lemma SetpointField(name: string, s: Slots, toF: bool, i: nat)
    requires Populated(s.hsetIdx) && i < 4
    ensures var sp := SetpointBlock(s, toF).fields;
      Get(ClimateDoc(name, s, toF), sp[i].0) == Some(sp[i].1)
  {
    var base := BaseFields(name);
    var t, sp, m, o, f := TempBlock(s, toF).fields, SetpointBlock(s, toF).fields, ModeBlock(s).fields,
                          ActionBlock(s).fields, FanBlock(s).fields;
    KeysAppend(base, t);
    SetpointKeysFresh(i);
    BlockField(base + t, sp, SetpointKeys, i);
    GetPrefix(base + t + sp, m, sp[i].0);
    GetPrefix(base + t + sp + m, o, sp[i].0);
    GetPrefix(base + t + sp + m + o, f, sp[i].0);
  }

  lemma SetpointKeysFresh(i: nat)
    requires i < 4
    ensures SetpointKeys[i] !in BaseKeys && SetpointKeys[i] !in TempKeys
    ensures forall j :: 0 <= j < i ==> SetpointKeys[j] != SetpointKeys[i]
  {
  }

  lemma SetpointPayloadShape(toF: bool)
    ensures StartsWith(SetpointPayload(toF), "{% set max_temp = " + MaxTemp + " %}")
    ensures Contains(SetpointPayload(toF), PassThrough)
  {
    var p := SetpointPayload(toF);
    var first := "{% set max_temp = " + MaxTemp + " %}";
    var head := first + "{% set ctof = trigger.payload_json.svalue1|float " + Tof(toF) + " %}";
    assert p == head + PassThrough + "";
    assert p[..|first|] == first;
    ContainsMiddle(head, PassThrough, "");
  }

  /**
   * The mode rules: one reports member `idx` on the entry's mode state topic
   * through the code-to-label map, the other forwards the command topic to
   * the hub through the label-to-code map; the entry offers the labels of
   * that map.
   */
  lemma ModeWiring(name: string, s: Slots, toF: bool)
    requires Populated(s.tmodeIdx)
    ensures var c, rs, idx := ClimateDoc(name, s, toF), ModeBlock(s).rules, s.tmodeIdx.value;
      && |rs| == 2
      && ScopedTo(rs[0], idx) && TriggerTopic(rs[0]) == Some(OutTopic)
      && PublishTopic(rs[0]) == StrField(c, "mode_state_topic") == Some(ClimateTopic("out", idx, "mode"))
      && TriggerTopic(rs[1]) == StrField(c, "mode_command_topic") == Some(ClimateTopic("in", idx, "mode"))
      && PublishTopic(rs[1]) == Some(InTopic)
      && Get(c, "modes") == Some(LabelList(s.tModes.codeOf))
      && PublishPayload(rs[0]) == Some(ModeReport(s.tModes.labelOf))
      && PublishPayload(rs[1]) == Some(ModeCommand(s.tModes.codeOf, idx))
  {
    var idx := s.tmodeIdx.value;
    StateRuleShape(idx + "_state", idx, ClimateTopic("out", idx, "mode"), ModeReport(s.tModes.labelOf));
    CommandRuleShape(idx + "_state_set", ClimateTopic("in", idx, "mode"), ModeCommand(s.tModes.codeOf, idx));
    ModeField(name, s, toF, 0);
    ModeField(name, s, toF, 1);
    ModeField(name, s, toF, 2);
  }

  lemma ModeField(name: string, s: Slots, toF: bool, i: nat)
    requires Populated(s.tmodeIdx) && i < 3
    ensures var m := ModeBlock(s).fields;
      Get(ClimateDoc(name, s, toF), m[i].0) == Some(m[i].1)
  {
    var base := BaseFields(name);
    var t, sp, m, o, f := TempBlock(s, toF).fields, SetpointBlock(s, toF).fields, ModeBlock(s).fields,
                          ActionBlock(s).fields, FanBlock(s).fields;
    KeysAppend(base, t);
    KeysAppend(base + t, sp);
    ModeKeysFresh(i);
    BlockField(base + t + sp, m, ModeKeys, i);
    GetPrefix(base + t + sp + m, o, m[i].0);
    GetPrefix(base + t + sp + m + o, f, m[i].0);
  }

  lemma ModeKeysFresh(i: nat)
    requires i < 3
    ensures ModeKeys[i] !in BaseKeys && ModeKeys[i] !in TempKeys && ModeKeys[i] !in SetpointKeys
    ensures forall j :: 0 <= j < i ==> ModeKeys[j] != ModeKeys[i]
  {
  }

  /** The operating-state rule reports member `idx` on the entry's action topic. */
  lemma ActionWiring(name: string, s: Slots, toF: bool)
    requires Populated(s.tstateIdx)
    ensures var c, rs, idx := ClimateDoc(name, s, toF), ActionBlock(s).rules, s.tstateIdx.value;
      && |rs| == 1
      && ScopedTo(rs[0], idx) && TriggerTopic(rs[0]) == Some(OutTopic)
      && PublishTopic(rs[0]) == StrField(c, "action_topic") == Some(ClimateTopic("out", idx, "action"))
      && PublishPayload(rs[0]) == Some(ActionPayload)
  {
    var idx := s.tstateIdx.value;
    StateRuleShape(idx + "_action", idx, ClimateTopic("out", idx, "action"), ActionPayload);
    var base := BaseFields(name);
    var t, sp, m, o, f := TempBlock(s, toF).fields, SetpointBlock(s, toF).fields, ModeBlock(s).fields,
                          ActionBlock(s).fields, FanBlock(s).fields;
    KeysAppend(base, t);
    KeysAppend(base + t, sp);
    KeysAppend(base + t + sp, m);
    assert "action_topic" !in BaseKeys + TempKeys + SetpointKeys + ModeKeys;
    BlockField(base + t + sp + m, o, ActionKeys, 0);
    GetPrefix(base + t + sp + m + o, f, "action_topic");
  }

  /**
   * The fan rules: the fan entry fields reuse the `/mode` topic path of the
   * fan member, and the fan command is addressed to the thermostat-mode
   * member's idx (`None` when the cluster has none).
   */
  lemma FanWiring(name: string, s: Slots, toF: bool)
    requires Populated(s.fmodeIdx)
    ensures var c, rs, idx := ClimateDoc(name, s, toF), FanBlock(s).rules, s.fmodeIdx.value;
      && |rs| == 2
      && ScopedTo(rs[0], idx) && TriggerTopic(rs[0]) == Some(OutTopic)
      && PublishTopic(rs[0]) == StrField(c, "fan_mode_state_topic") == Some(ClimateTopic("out", idx, "mode"))
      && TriggerTopic(rs[1]) == StrField(c, "fan_mode_command_topic") == Some(ClimateTopic("in", idx, "mode"))
      && PublishTopic(rs[1]) == Some(InTopic)
      && Get(c, "fan_modes") == Some(LabelList(s.fModes.codeOf))
      && PublishPayload(rs[0]) == Some(ModeReport(s.fModes.labelOf))
      && PublishPayload(rs[1]) == Some(ModeCommand(s.fModes.codeOf, IdxText(s.tmodeIdx)))
  {
    var idx := s.fmodeIdx.value;
    StateRuleShape(idx + "_state", idx, ClimateTopic("out", idx, "mode"), ModeReport(s.fModes.labelOf));
    CommandRuleShape(idx + "_state_set", ClimateTopic("in", idx, "mode"), ModeCommand(s.fModes.codeOf, IdxText(s.tmodeIdx)));
    FanField(name, s, toF, 0);
    FanField(name, s, toF, 1);
    FanField(name, s, toF, 2);
  }

  lemma FanField(name: string, s: Slots, toF: bool, i: nat)
    requires Populated(s.fmodeIdx) && i < 3
    ensures var f := FanBlock(s).fields;
      Get(ClimateDoc(name, s, toF), f[i].0) == Some(f[i].1)
  {
    var base := BaseFields(name);
    var t, sp, m, o, f := TempBlock(s, toF).fields, SetpointBlock(s, toF).fields, ModeBlock(s).fields,
                          ActionBlock(s).fields, FanBlock(s).fields;
    KeysAppend(base, t);
    KeysAppend(base + t, sp);
    KeysAppend(base + t + sp, m);
    KeysAppend(base + t + sp + m, o);
    FanKeysFresh(i);
    BlockField(base + t + sp + m + o, f, FanKeys, i);
  }

  lemma FanKeysFresh(i: nat)
    requires i < 3
    ensures FanKeys[i] !in BaseKeys + TempKeys + SetpointKeys + ModeKeys + ActionKeys
    ensures forall j :: 0 <= j < i ==> FanKeys[j] != FanKeys[i]
  {
  }

  /** With a fan member but no thermostat-mode member, the fan command names device `None`. */
  lemma FanCommandWithoutModeMember(s: Slots)
    requires Populated(s.fmodeIdx) && s.tmodeIdx.None?
    ensures var p := ModeCommand(s.fModes.codeOf, IdxText(s.tmodeIdx));
      PublishPayload(FanBlock(s).rules[1]) == Some(p) && Contains(p, "{ \"idx\": None")
  {
    var idx := s.fmodeIdx.value;
    CommandRuleShape(idx + "_state_set", ClimateTopic("in", idx, "mode"), ModeCommand(s.fModes.codeOf, IdxText(s.tmodeIdx)));
    var p := ModeCommand(s.fModes.codeOf, IdxText(s.tmodeIdx));
    var head := "{% with mode_map={" + MapLiteral(CodeEntries(s.fModes.codeOf)) + "} %}";
    var t := "{ \"idx\": None";
    var tail := ", \"nvalue\": {{ mode_map[trigger.payload] }} }" + "{% endwith %}";
    assert t == "{ \"idx\": " + "None";
    assert p == head + t + tail;
    ContainsMiddle(head, t, tail);
  }

  /**
   * When the kept labels are distinct, the command map of a mode block takes
   * every label the report map can show back to the code it is shown for.
   */
  lemma ModeMapsAgree(modes: string, vocabOnly: bool)
    requires ModeMapOf(modes, vocabOnly).Ok?
    requires Distinct(Labels(KeptPairs(Tokens(modes), |Tokens(modes)| / 2, vocabOnly)))
    ensures var mm := ModeMapOf(modes, vocabOnly).value;
      forall c :: c in Dict.Keys(mm.labelOf) ==>
        && Dict.Get(mm.labelOf, c).Some?
        && (exists i :: 0 <= i < |mm.codeOf|
              && CodeEntries(mm.codeOf)[i].0 == Dict.Get(mm.labelOf, c).value
              && ParseNat(CodeEntries(mm.codeOf)[i].1) == ParseNat(c))
  {
    var mm := ModeMapOf(modes, vocabOnly).value;
    ModeMapRoundTrip(modes, vocabOnly);
    CodeEntriesParse(mm.codeOf);
    forall c | c in Dict.Keys(mm.labelOf)
      ensures exists i :: (0 <= i < |mm.codeOf|
              && CodeEntries(mm.codeOf)[i].0 == Dict.Get(mm.labelOf, c).value
              && ParseNat(CodeEntries(mm.codeOf)[i].1) == ParseNat(c))
    {
      var l := Dict.Get(mm.labelOf, c).value;
      TableCodesParse(modes, vocabOnly, c);
      Dict.GetSomeIndex(mm.codeOf, l);
      var i :| 0 <= i < |mm.codeOf| && mm.codeOf[i] == (l, Dict.Get(mm.codeOf, l).value);
      assert CodeEntries(mm.codeOf)[i].0 == l;
    }
  }

  /** A mode-only cluster yields exactly the two mode rules and only the mode fields. */
  lemma ModeOnlyCluster(name: string, s: Slots, toF: bool)
    requires Populated(s.tmodeIdx)
    requires !Populated(s.tIdx) && !Populated(s.hsetIdx) && !Populated(s.tstateIdx) && !Populated(s.fmodeIdx)
    ensures |ClimateRules(s, toF)| == 2
    ensures Keys(ClimateDoc(name, s, toF)) == BaseKeys + ModeKeys
  {
    RuleCount(s, toF);
    ClimateKeys(name, s, toF);
  }
}
