/**
 * The generator's data: the hub's device records, and the ordered documents
 * (configuration entries and automation rules) it hands to the YAML
 * emitter, together with the rule fragments every builder shares.
 */
module Docs {
  import opened Wrappers
  import Dict

  /**
   * One record of the hub's device list. `idx` is the JSON string the hub
   * reports; `modes` is absent on every device but thermostat mode controls.
   */
  datatype Device = Device(
    id: string,
    idx: string,
    name: string,
    typ: string,
    subType: string,
    switchType: string,
    hardwareName: string,
    hardwareType: string,
    modes: Option<string>)

  /**
   * The exceptions that abort a run of the generator: a mode control
   * without a `Modes` field (KeyError), a kept mode code that `int()`
   * rejects (ValueError), the name-override table read while never
   * assigned (UnboundLocalError), and an override piece that is not one
   * `id:name` pair (ValueError).
   */
  datatype Error = MissingModes(idx: string) | BadModeCode(code: string) | UnboundOverrides | BadOverride(piece: string)

  /**
   * A value inside a document: YAML null, a scalar string, a list, or a
   * mapping whose entries keep their insertion order.
   */
  datatype Value = Null | Str(s: string) | Items(elems: seq<Value>) | Fields(entries: seq<(string, Value)>)

  /** An insertion-ordered document (the source's `UnsortableOrderedDict`). */
  type Doc = seq<(string, Value)>

  function Get(d: Doc, k: string): Option<Value> { Dict.Get(d, k) }

  function Keys(d: Doc): seq<string> { Dict.Keys(d) }

  /** `s` is one of the scalar leaves of `v`. */
  predicate Mentions(v: Value, s: string) {
    match v
    case Null => false
    case Str(t) => t == s
    case Items(vs) => exists i :: 0 <= i < |vs| && Mentions(vs[i], s)
    case Fields(es) => exists i :: 0 <= i < |es| && Mentions(es[i].1, s)
  }

  /** The conversion appended to the temperature expression when reporting in Fahrenheit. */
  function Tof(toF: bool): string {
    if toF then " * 1.8 + 32" else ""
  }

  const OutTopic := "domoticz/out"
  const InTopic := "domoticz/in"
  const RuleKeys := ["alias", "trigger", "condition", "action"]

  /** The hub's per-device status topic, e.g. `domoticz/out/12/light/status`. */
  function StatusTopic(idx: string, kind: string): string {
    "domoticz/out/" + idx + "/" + kind + "/status"
  }

  function MqttTrigger(topic: string): Value {
    Fields([("platform", Str("mqtt")), ("topic", Str(topic))])
  }

  /** The template test that scopes a rule to the messages of one device. */
  function IdxTest(idx: string): string {
    "{{ trigger.payload_json.idx == " + idx + " }}"
  }

  function TemplateCondition(test: string): Value {
    Fields([("condition", Str("template")), ("value_template", Str(test))])
  }

  /** One `mqtt.publish` action whose data template lists the topic first. */
  function Publish(topic: string, payload: string): Value {
    Fields([("service", Str("mqtt.publish")),
            ("data_template", Fields([("topic", Str(topic)), ("payload_template", Str(payload))]))])
  }

  /** The same action with the payload listed first, as the thermostat rules write it. */
  function PublishPayloadFirst(payload: string, topic: string): Value {
    Fields([("service", Str("mqtt.publish")),
            ("data_template", Fields([("payload_template", Str(payload)), ("topic", Str(topic))]))])
  }

  /**
   * The rule shape shared by most builders: triggered by every hub message,
   * kept only for the messages of device `idx`, republishing to `topic`.
   */
  function ReportRule(alias: string, idx: string, topic: string, payload: string): Doc {
    [("alias", Str(alias)),
     ("trigger", MqttTrigger(OutTopic)),
     ("condition", Items([TemplateCondition(IdxTest(idx))])),
     ("action", Items([Publish(topic, payload)]))]
  }

  /** The field `k` of a mapping value. */
  function FieldOf(v: Value, k: string): Option<Value> {
    if v.Fields? then Get(v.entries, k) else None
  }

  /** The data template of a rule's single action. */
  function DataTemplate(r: Doc): Option<Value> {
    match Get(r, "action")
    case Some(Items(acts)) =>
      if |acts| == 1 then FieldOf(acts[0], "data_template") else None
    case _ => None
  }

  /** The topic a single-action rule publishes to. */
  function PublishTopic(r: Doc): Option<string> {
    match DataTemplate(r)
    case Some(dt) =>
      (match FieldOf(dt, "topic") case Some(Str(t)) => Some(t) case _ => None)
    case None => None
  }

  /** The payload template a single-action rule publishes. */
  function PublishPayload(r: Doc): Option<string> {
    match DataTemplate(r)
    case Some(dt) =>
      (match FieldOf(dt, "payload_template") case Some(Str(t)) => Some(t) case _ => None)
    case None => None
  }

  /** The topic a rule is triggered by. */
  function TriggerTopic(r: Doc): Option<string> {
    match Get(r, "trigger")
    case Some(t) =>
      (match FieldOf(t, "topic") case Some(Str(s)) => Some(s) case _ => None)
    case None => None
  }

  /** The rule only fires for messages whose `idx` is `idx`. */
  predicate ScopedTo(r: Doc, idx: string) {
    match Get(r, "condition")
    case Some(c) => Mentions(c, IdxTest(idx))
    case None => false
  }

  /** A configuration entry's scalar field `k`. */
  function StrField(d: Doc, k: string): Option<string> {
    match Get(d, k) case Some(Str(s)) => Some(s) case _ => None
  }

  lemma ReportRuleShape(alias: string, idx: string, topic: string, payload: string)
    ensures var r := ReportRule(alias, idx, topic, payload);
      && Keys(r) == RuleKeys
      && StrField(r, "alias") == Some(alias)
      && TriggerTopic(r) == Some(OutTopic)
      && ScopedTo(r, idx)
      && PublishTopic(r) == Some(topic)
      && PublishPayload(r) == Some(payload)
  {
    var r := ReportRule(alias, idx, topic, payload);
    Dict.GetIndex(r, 0);
    Dict.GetIndex(r, 1);
    Dict.GetIndex(r, 2);
    Dict.GetIndex(r, 3);
    var c := Items([TemplateCondition(IdxTest(idx))]);
    assert Mentions(TemplateCondition(IdxTest(idx)).entries[1].1, IdxTest(idx));
    assert Mentions(c.elems[0], IdxTest(idx));
    Dict.GetIndex(MqttTrigger(OutTopic).entries, 1);
    var dt := [("topic", Str(topic)), ("payload_template", Str(payload))];
    Dict.GetIndex(Publish(topic, payload).entries, 1);
    Dict.GetIndex(dt, 0);
    Dict.GetIndex(dt, 1);
  }
}
