/**
 * The generator's run-wide accumulators: the names of the motion, door,
 * temperature-class and light entries written so far, and the table of
 * grouped sensors (group key to display name followed by member names).
 * The builders that write entries also record them here; at the end the
 * groups file is computed from what was recorded.
 */
module Accumulators {
  import opened Wrappers
  import opened Strings
  import opened Docs
  import opened Builders
  import Dict

  /** The accumulators as one value. */
  datatype Lists = Lists(
    motion: seq<string>,
    door: seq<string>,
    temp: seq<string>,
    lights: seq<string>,
    grouped: Dict.Dict<string, seq<string>>)

  const NoLists := Lists([], [], [], [], [])

  /** Every grouped entry starts with a display name. */
  ghost predicate GroupsNamed(g: Dict.Dict<string, seq<string>>) {
    forall i :: 0 <= i < |g| ==> |g[i].1| >= 1
  }

  // What each builder records

  function LightStep(s: Lists, d: Device): Lists {
    s.(lights := s.lights + [d.name])
  }

  /** A motion sensor is recorded as motion, any other binary sensor as a door. */
  function BinaryStep(s: Lists, d: Device): Lists {
    if d.switchType == "Motion Sensor" then s.(motion := s.motion + [d.name])
    else s.(door := s.door + [d.name])
  }

  /** The group key of a temperature-class device: its name with spaces made underscores. */
  function TempKey(d: Device): string {
    ReplaceChar(d.name, ' ', '_')
  }

  function HumidityMembers(d: Device): seq<string> {
    [d.name, d.name + "_humidity", d.name + "_temperature"]
  }

  function WindMembers(d: Device): seq<string> {
    [d.name, d.name + "_windspeed", d.name + "_windgust", d.name + "_windchill", d.name + "_direction"]
  }

  /** The barometric type mentions `Humidity`, so its group exists when the barometer is added. */
  lemma BaroMentionsHumidity(typ: string)
    ensures typ == "Temp + Humidity + Baro" ==> Contains(typ, "Humidity")
  {
    if typ == "Temp + Humidity + Baro" {
      TypeMentions(typ);
    }
  }

  // The four blocks of the temperature builder, each as a step on the accumulators

  /** A device whose type mentions `Temp` gets a temperature entry. */
  function TemperatureStep(s: Lists, d: Device, toF: bool): Lists {
    s.(temp := s.temp + SpecNames(d, TemperatureSpecs(d.typ, toF)))
  }

  /** A device whose type mentions `Humidity` gets a humidity entry and a group with its temperature entry. */
  function HumidityStep(s: Lists, d: Device): Lists {
    s.(temp := s.temp + SpecNames(d, HumiditySpecs(d.typ)),
       grouped := if Contains(d.typ, "Humidity") then Dict.Put(s.grouped, TempKey(d), HumidityMembers(d)) else s.grouped)
  }

  /** The barometric type gets a barometer entry, appended to the group the humidity block wrote. */
  function BarometerStep(s: Lists, d: Device): Lists
    requires d.typ == "Temp + Humidity + Baro" ==> Dict.Get(s.grouped, TempKey(d)).Some?
  {
    s.(temp := s.temp + SpecNames(d, BarometerSpecs(d.typ)),
       grouped :=
         if d.typ == "Temp + Humidity + Baro"
         then Dict.Put(s.grouped, TempKey(d), Dict.Get(s.grouped, TempKey(d)).value + [d.name + "_barometer"])
         else s.grouped)
  }

  /** A wind device gets four entries and a group of them. */
  function WindStep(s: Lists, d: Device, toF: bool): Lists {
    s.(temp := s.temp + SpecNames(d, WindSpecs(d.typ, toF)),
       grouped := if d.typ == "Wind" then Dict.Put(s.grouped, TempKey(d), WindMembers(d)) else s.grouped)
  }

  /** The humidity block leaves a group under the device's key whenever the barometer block needs one. */
  lemma HumidityGroupExists(s: Lists, d: Device, toF: bool)
    ensures d.typ == "Temp + Humidity + Baro" ==> Dict.Get(HumidityStep(TemperatureStep(s, d, toF), d).grouped, TempKey(d)).Some?
  {
    BaroMentionsHumidity(d.typ);
    Dict.PutGet(s.grouped, TempKey(d), HumidityMembers(d), TempKey(d));
  }

  /** The temperature builder: the four blocks in order. */
  function TempStep(s: Lists, d: Device, toF: bool): Lists {
    var s1 := HumidityStep(TemperatureStep(s, d, toF), d);
    HumidityGroupExists(s, d, toF);
    WindStep(BarometerStep(s1, d), d, toF)
  }

  /** Each block appends the names of the entries it writes. */
  lemma TempStepParts(s: Lists, d: Device, toF: bool)
    ensures TempStep(s, d, toF).temp
      == s.temp + SpecNames(d, TemperatureSpecs(d.typ, toF)) + SpecNames(d, HumiditySpecs(d.typ))
         + SpecNames(d, BarometerSpecs(d.typ)) + SpecNames(d, WindSpecs(d.typ, toF))
  {
    var s2 := HumidityStep(TemperatureStep(s, d, toF), d);
    HumidityGroupExists(s, d, toF);
    assert TempStep(s, d, toF) == WindStep(BarometerStep(s2, d), d, toF);
  }

  /** The builder records exactly the names of the entries it writes, in order. */
  lemma TempStepNames(s: Lists, d: Device, toF: bool)
    ensures TempStep(s, d, toF).temp == s.temp + TempSensorNames(d, toF)
  {
    var t, h, b, w := TemperatureSpecs(d.typ, toF), HumiditySpecs(d.typ), BarometerSpecs(d.typ), WindSpecs(d.typ, toF);
    var n1, n2, n3, n4 := SpecNames(d, t), SpecNames(d, h), SpecNames(d, b), SpecNames(d, w);
    TempStepParts(s, d, toF);
    SpecsAppend4(d, t, h, b, w);
    assert TempSensorNames(d, toF) == n1 + n2 + n3 + n4;
    AppendAssoc(s.temp, n1, n2);
    AppendAssoc(s.temp, n1 + n2, n3);
    AppendAssoc(s.temp, n1 + n2 + n3, n4);
  }

  /** The temperature builder records no light, motion or door name. */
  lemma TempStepOthers(s: Lists, d: Device, toF: bool)
    ensures var r := TempStep(s, d, toF); r.lights == s.lights && r.motion == s.motion && r.door == s.door
  {
  }

  /**
   * The group a temperature-class device leaves: its humidity and
   * temperature entries (and barometer for the barometric type), or its four
   * wind entries; other types leave the table as it was.
   */
  lemma TempStepGroups(s: Lists, d: Device, toF: bool)
    requires d.typ in TempTypes
    ensures var g, key := TempStep(s, d, toF).grouped, TempKey(d);
      && (d.typ == "Temp" ==> g == s.grouped)
      && (d.typ == "Temp + Humidity" ==> g == Dict.Put(s.grouped, key, HumidityMembers(d)))
      && (d.typ == "Temp + Humidity + Baro" ==> g == Dict.Put(s.grouped, key, HumidityMembers(d) + [d.name + "_barometer"]))
      && (d.typ == "Wind" ==> g == Dict.Put(s.grouped, key, WindMembers(d)))
  {
    TypeMentions(d.typ);
    var key := TempKey(d);
    if d.typ == "Temp + Humidity + Baro" {
      var g1 := Dict.Put(s.grouped, key, HumidityMembers(d));
      Dict.PutGet(s.grouped, key, HumidityMembers(d), key);
      Dict.PutTwice(s.grouped, key, HumidityMembers(d), HumidityMembers(d) + [d.name + "_barometer"]);
    }
  }

  /**
   * A `Humidity`-only device groups a `_temperature` entry that the builder
   * never writes.
   */
  lemma HumidityOnlyGroupsMissingEntry(s: Lists, d: Device, toF: bool)
    requires d.typ == "Humidity"
    ensures Dict.Get(TempStep(s, d, toF).grouped, TempKey(d)) == Some(HumidityMembers(d))
    ensures d.name + "_temperature" in HumidityMembers(d)
    ensures d.name + "_temperature" !in TempSensorNames(d, toF)
  {
    HumidityOnlySpecs(d.typ, toF);
    Dict.PutGet(s.grouped, TempKey(d), HumidityMembers(d), TempKey(d));
    assert TempSensorNames(d, toF) == [d.name + "_humidity"];
    assert |d.name + "_temperature"| != |d.name + "_humidity"|;
  }

  lemma HumidityOnlySpecs(typ: string, toF: bool)
    requires typ == "Humidity"
    ensures Contains(typ, "Humidity") && !Contains(typ, "Temp")
    ensures TempSensorSpecs(typ, toF) == [HumiditySpec]
  {
    assert StartsWith(typ, "Humidity");
    assert 'T' !in typ;
    if Contains(typ, "Temp") {
      ContainsChars(typ, "Temp", 'T');
    }
  }

  /** A kWh meter is grouped with its two power entries. */
  function PowerStep(s: Lists, d: Device): Lists {
    s.(grouped := Dict.Put(s.grouped, ConvertName(d.name), [d.name, d.name + "_kwh", d.name + "_watts"]))
  }

  /** The meter keys of a kWh device, one per period. */
  function MeterKeys(key: string): (r: seq<string>)
    ensures |r| == |Durations|
  {
    seq(|Durations|, i requires 0 <= i < |Durations| => MeterKey(key, Durations[i]))
  }

  /** The utility meters of a kWh device, one per period. */
  function MeterDoc(key: string): (r: Doc)
    ensures |r| == |Durations|
  {
    seq(|Durations|, i requires 0 <= i < |Durations| => (MeterKey(key, Durations[i]), MeterEntry(key, Durations[i])))
  }

  /** A kWh meter's consumption group lists its meters. */
  function MeterStep(s: Lists, d: Device): Lists {
    var key := ConvertName(d.name);
    s.(grouped := Dict.Put(s.grouped, key + "consumption", [d.name + " Consumption"] + MeterKeys(key)))
  }

  /**
   * A kWh device gets five meters, hourly to quarterly, under distinct keys,
   * each accumulating the device's `_kwh` sensor over its period.
   */
  lemma MeterEntries(key: string)
    ensures var m := MeterDoc(key);
      && |m| == 5
      && Dict.DistinctKeys(m)
      && forall i :: 0 <= i < 5 ==>
           && m[i].0 == MeterKey(key, Durations[i])
           && FieldOf(m[i].1, "source") == Some(Str("sensor." + key + "_kwh"))
           && FieldOf(m[i].1, "cycle") == Some(Str(Durations[i]))
  {
    var m := MeterDoc(key);
    forall i, j | 0 <= i < j < |m| ensures m[i].0 != m[j].0 {
      MeterKeysDistinct(key, i, j);
    }
    forall i | 0 <= i < 5
      ensures FieldOf(m[i].1, "cycle") == Some(Str(Durations[i]))
    {
      Dict.GetIndex(m[i].1.entries, 1);
    }
  }

  /** Converting a `sensor.` entity id converts the name after the prefix. */
  lemma SensorPrefix(x: string)
    ensures ConvertName("sensor." + x) == "sensor." + ConvertName(x)
  {
    var p := "sensor.";
    assert forall i :: 0 <= i < |p| ==> p[i] in "abcdefghijklmnopqrstuvwxyz.";
    ConvertNamePlain(p);
    ConvertNameAppend(p, x);
  }

  /** The meters' source is the entity the platform derives from the kWh entry's name. */
  lemma MeterSourceIsKwhSensor(d: Device)
    ensures StrField(KwhConfig(d), "name") == Some(d.name + "_kwh")
    ensures "sensor." + ConvertName(d.name) + "_kwh" == ConvertName("sensor." + (d.name + "_kwh"))
  {
    SensorConfigFields(d.name + "_kwh", d.idx, "kwh", "{{ value_json.kwh }}");
    KwhEntityId(d.name);
  }

  lemma KwhEntityId(name: string)
    ensures ConvertName("sensor." + (name + "_kwh")) == "sensor." + ConvertName(name) + "_kwh"
  {
    SensorPrefix(name + "_kwh");
    ConvertNameAppend(name, "_kwh");
    KwhSuffixPlain();
    AppendAssoc("sensor.", ConvertName(name), "_kwh");
  }

  lemma KwhSuffixPlain()
    ensures ConvertName("_kwh") == "_kwh"
  {
    var p := "_kwh";
    assert forall i :: 0 <= i < |p| ==> p[i] in "_kwh";
    ConvertNamePlain(p);
  }

  // The groups file

  /** A group entry: the display name, then the entity ids of the members. */
  function GroupEntry(items: seq<string>): Value
    requires |items| >= 1
  {
    Fields([("name", Str(items[0])),
            ("entities", Items(seq(|items| - 1, i requires 0 <= i < |items| - 1 => Str(ConvertName("sensor." + items[i + 1])))))])
  }

  /** The explicit groups, keyed by the converted group key; a later key converting alike replaces the entry. */
  function GroupedSensorsDoc(g: Dict.Dict<string, seq<string>>): Doc
    requires GroupsNamed(g)
  {
    if g == [] then []
    else
      var init := g[..|g| - 1];
      var last := g[|g| - 1];
      Dict.Put(GroupedSensorsDoc(init), ConvertName(last.0), GroupEntry(last.1))
  }

  /** A group lists each member as `sensor.` followed by the member's converted name. */
  lemma GroupEntities(items: seq<string>, i: nat)
    requires |items| >= 1 && i < |items| - 1
    ensures FieldOf(GroupEntry(items), "entities").Some?
    ensures var es := FieldOf(GroupEntry(items), "entities").value;
      es.Items? && |es.elems| == |items| - 1 && es.elems[i] == Str("sensor." + ConvertName(items[i + 1]))
  {
    var es := seq(|items| - 1, j requires 0 <= j < |items| - 1 => Str(ConvertName("sensor." + items[j + 1])));
    assert GroupEntry(items) == Fields([("name", Str(items[0])), ("entities", Items(es))]);
    Dict.GetIndex(GroupEntry(items).entries, 1);
    assert es[i] == Str(ConvertName("sensor." + items[i + 1]));
    SensorPrefix(items[i + 1]);
  }

  /** The table's keys, converted. */
  function ConvertedKeys(g: Dict.Dict<string, seq<string>>): (r: seq<string>)
    ensures |r| == |g|
  {
    if g == [] then [] else ConvertedKeys(g[..|g| - 1]) + [ConvertName(g[|g| - 1].0)]
  }

  /** The explicit groups are keyed by the converted keys of the table. */
  lemma {:induction false} GroupedSensorsKeys(g: Dict.Dict<string, seq<string>>)
    requires GroupsNamed(g)
    ensures forall k :: k in Keys(GroupedSensorsDoc(g)) <==> k in ConvertedKeys(g)
  {
    if g != [] {
      var init, last := g[..|g| - 1], g[|g| - 1];
      assert GroupsNamed(init);
      GroupedSensorsKeys(init);
      var doc, k := GroupedSensorsDoc(init), ConvertName(last.0);
      Dict.PutKeys(doc, k, GroupEntry(last.1));
    }
  }

  /** No converted key is written twice: a later key converting alike replaces the entry. */
  lemma {:induction false} GroupedSensorsDistinct(g: Dict.Dict<string, seq<string>>)
    requires GroupsNamed(g)
    ensures Dict.DistinctKeys(GroupedSensorsDoc(g))
  {
    if g != [] {
      var init, last := g[..|g| - 1], g[|g| - 1];
      assert GroupsNamed(init);
      GroupedSensorsDistinct(init);
      Dict.PutDistinct(GroupedSensorsDoc(init), ConvertName(last.0), GroupEntry(last.1));
    }
  }

  /** `l.remove(x)` when `x` is in `l`: its first occurrence taken out. */
  function RemoveFirst(l: seq<string>, x: string): seq<string> {
    if l == [] then []
    else if l[0] == x then l[1..]
    else [l[0]] + RemoveFirst(l[1..], x)
  }

  /**
   * Removing takes out exactly the first occurrence, keeping the rest in
   * order, and leaves a list without `x` as it is.
   */
  lemma {:induction false} RemoveFirstSpec(l: seq<string>, x: string) returns (i: nat)
    ensures x in l ==> i < |l| && l[i] == x && x !in l[..i] && RemoveFirst(l, x) == l[..i] + l[i + 1..]
    ensures x !in l ==> RemoveFirst(l, x) == l
  {
    if l == [] {
      i := 0;
    } else if l[0] == x {
      i := 0;
    } else {
      var j := RemoveFirstSpec(l[1..], x);
      i := j + 1;
      if x in l {
        assert x in l[1..];
        assert l[..i] == [l[0]] + l[1..][..j];
        assert l[i + 1..] == l[1..][j + 1..];
      } else {
        assert l == [l[0]] + l[1..];
      }
    }
  }

  lemma {:induction false} RemoveFirstCount(l: seq<string>, x: string)
    ensures multiset(RemoveFirst(l, x)) == multiset(l) - multiset{x}
  {
    if l != [] {
      assert l == [l[0]] + l[1..];
      if l[0] != x {
        RemoveFirstCount(l[1..], x);
      }
    }
  }

  /** The list after removing each of `xs` in turn. */
  function RemoveEach(l: seq<string>, xs: seq<string>): seq<string> {
    if xs == [] then l else RemoveFirst(RemoveEach(l, xs[..|xs| - 1]), xs[|xs| - 1])
  }

  /** Each listed name removes at most one matching occurrence: multiset difference. */
  lemma {:induction false} RemoveEachCount(l: seq<string>, xs: seq<string>)
    ensures multiset(RemoveEach(l, xs)) == multiset(l) - multiset(xs)
  {
    if xs != [] {
      var init, x := xs[..|xs| - 1], xs[|xs| - 1];
      var r := RemoveEach(l, init);
      calc {
        multiset(RemoveEach(l, xs));
        multiset(RemoveFirst(r, x));
        { RemoveFirstCount(r, x); }
        multiset(r) - multiset{x};
        { RemoveEachCount(l, init); }
        (multiset(l) - multiset(init)) - multiset{x};
        { MinusTwice(multiset(l), multiset(init), multiset{x}); }
        multiset(l) - (multiset(init) + multiset{x});
        { assert xs == init + [x]; }
        multiset(l) - multiset(xs);
      }
    }
  }

  lemma MinusTwice(a: multiset<string>, b: multiset<string>, c: multiset<string>)
    ensures (a - b) - c == a - (b + c)
  {
  }

  /**
   * `f` picks out `sub` inside `l`: position `i` of `sub` is position `f[i]`
   * of `l`, and the positions increase, so `sub` keeps the order of `l`.
   */
  ghost predicate Embeds(f: seq<nat>, sub: seq<string>, l: seq<string>) {
    && |f| == |sub|
    && (forall i :: 0 <= i < |f| ==> f[i] < |l| && l[f[i]] == sub[i])
    && (forall i, j :: 0 <= i < j < |f| ==> f[i] < f[j])
  }

  /** `l.remove(x)` keeps the other elements in their order. */
  lemma RemoveFirstOrder(l: seq<string>, x: string) returns (f: seq<nat>)
    ensures Embeds(f, RemoveFirst(l, x), l)
  {
    var i := RemoveFirstSpec(l, x);
    if x in l {
      f := DropOrder(l, i);
    } else {
      f := seq(|l|, j requires 0 <= j < |l| => j);
    }
  }

  /** Dropping position `i` keeps the other positions in order. */
  lemma DropOrder(l: seq<string>, i: nat) returns (f: seq<nat>)
    requires i < |l|
    ensures Embeds(f, l[..i] + l[i + 1..], l)
  {
    var r := l[..i] + l[i + 1..];
    f := seq(|l| - 1, j requires 0 <= j < |l| - 1 => if j < i then j else j + 1);
    forall j | 0 <= j < |f|
      ensures f[j] < |l| && l[f[j]] == r[j]
    {
      if j < i {
        assert r[j] == l[..i][j];
      } else {
        assert r[j] == l[i + 1..][j - i];
      }
    }
  }

  /** Removing one member after another keeps the remaining elements in their order. */
  lemma {:induction false} RemoveEachOrder(l: seq<string>, xs: seq<string>) returns (f: seq<nat>)
    ensures Embeds(f, RemoveEach(l, xs), l)
  {
    if xs == [] {
      f := seq(|l|, j requires 0 <= j < |l| => j);
    } else {
      var init := xs[..|xs| - 1];
      var r := RemoveEach(l, init);
      var f1 := RemoveEachOrder(l, init);
      var f2 := RemoveFirstOrder(r, xs[|xs| - 1]);
      f := seq(|f2|, j requires 0 <= j < |f2| => f1[f2[j]]);
    }
  }

  /** The members of every group, in table order. */
  function Flatten(g: Dict.Dict<string, seq<string>>): seq<string> {
    if g == [] then [] else Flatten(g[..|g| - 1]) + g[|g| - 1].1
  }

  /** The candidates for the catch-all sensor group: temperature, then motion, then door names. */
  function Candidates(s: Lists): seq<string> {
    s.temp + s.motion + s.door
  }

  /** The candidates that no group claims. */
  function Ungrouped(s: Lists): seq<string> {
    RemoveEach(Candidates(s), Flatten(s.grouped))
  }

  function Prefixed(prefix: string, names: seq<string>): (r: seq<Value>)
    ensures |r| == |names|
  {
    seq(|names|, i requires 0 <= i < |names| => Str(prefix + ConvertName(names[i])))
  }

  /**
   * The catch-all groups: the sensors no group claims followed by the
   * groups themselves, and every light.
   */
  function GroupsDoc(s: Lists): Doc {
    [("sensors", Fields([("name", Str("Sensors")),
                         ("entities", Items(Prefixed("sensor.", Ungrouped(s)) + Prefixed("group.", Dict.Keys(s.grouped))))])),
     ("lights", Fields([("name", Str("Lights")), ("entities", Items(Prefixed("light.", s.lights)))]))]
  }

  /**
   * A candidate name stays in the catch-all group as often as it is listed
   * more often among the candidates than among the group members.
   */
  lemma UngroupedCount(s: Lists, x: string)
    ensures multiset(Ungrouped(s))[x] ==
      if multiset(Candidates(s))[x] > multiset(Flatten(s.grouped))[x]
      then multiset(Candidates(s))[x] - multiset(Flatten(s.grouped))[x] else 0
  {
    RemoveEachCount(Candidates(s), Flatten(s.grouped));
  }

  /** The catch-all group lists the unclaimed candidates in the order they were recorded. */
  lemma UngroupedOrder(s: Lists) returns (f: seq<nat>)
    ensures Embeds(f, Ungrouped(s), Candidates(s))
  {
    f := RemoveEachOrder(Candidates(s), Flatten(s.grouped));
  }

  /** The accumulators as the source keeps them: module-level lists the builders append to. */
  class Context {
    var motionSensors: seq<string>
    var doorSensors: seq<string>
    var tempSensors: seq<string>
    var lightSwitches: seq<string>
    var groupedSensors: Dict.Dict<string, seq<string>>

    ghost predicate Valid()
      reads this
    {
      GroupsNamed(groupedSensors)
    }

    function State(): Lists
      reads this
    {
      Lists(motionSensors, doorSensors, tempSensors, lightSwitches, groupedSensors)
    }

    constructor()
      ensures Valid() && State() == NoLists
    {
      motionSensors, doorSensors, tempSensors, lightSwitches := [], [], [], [];
      groupedSensors := [];
    }

    /** The light entry of a device; the device is recorded as a light. */
    method GenLightConfigs(d: Device) returns (data: Doc)
      requires Valid()
      modifies this
      ensures Valid()
      ensures data == LightConfig(d)
      ensures State() == LightStep(old(State()), d)
    {
      lightSwitches := lightSwitches + [d.name];
      data := LightConfig(d);
    }

    /** The binary sensor entry of a device; the device is recorded as motion or door. */
    method GenBinarySensor(d: Device) returns (data: Doc)
      requires Valid()
      modifies this
      ensures Valid()
      ensures data == BinarySensorConfig(d)
      ensures State() == BinaryStep(old(State()), d)
    {
      if d.switchType == "Motion Sensor" {
        motionSensors := motionSensors + [d.name];
      } else {
        doorSensors := doorSensors + [d.name];
      }
      data := BinarySensorConfig(d);
    }

    /** The two power entries of a kWh device, grouped under the device. */
    method GenPowerConfigs(d: Device) returns (data: seq<Doc>)
      requires Valid()
      modifies this
      ensures Valid()
      ensures data == [KwhConfig(d), WattsConfig(d)]
      ensures State() == PowerStep(old(State()), d)
    {
      var kwh := KwhConfig(d);
      var watts := WattsConfig(d);
      groupedSensors := Dict.Put(groupedSensors, ConvertName(d.name), [d.name, d.name + "_kwh", d.name + "_watts"]);
      PutNamed(old(groupedSensors), ConvertName(d.name), [d.name, d.name + "_kwh", d.name + "_watts"]);
      data := [kwh, watts];
    }

    /** The loop that writes a kWh device's five meters and groups them. */
    method GenUtilityMeterConfigs(d: Device) returns (data: Doc)
      requires Valid()
      modifies this
      ensures Valid()
      ensures data == MeterDoc(ConvertName(d.name))
      ensures State() == MeterStep(old(State()), d)
    {
      data := [];
      var key := ConvertName(d.name);
      var grouped: seq<string> := [];
      for i := 0 to |Durations|
        invariant data == MeterDoc(key)[..i]
        invariant grouped == MeterKeys(key)[..i]
        invariant unchanged(this)
      {
        var sensorKey := MeterKey(key, Durations[i]);
        forall j | 0 <= j < i ensures Dict.Keys(data)[j] != sensorKey {
          MeterKeysDistinct(key, j, i);
        }
        Dict.PutFresh(data, sensorKey, MeterEntry(key, Durations[i]));
        data := Dict.Put(data, sensorKey, MeterEntry(key, Durations[i]));
        grouped := grouped + [sensorKey];
      }
      assert MeterDoc(key)[..|Durations|] == MeterDoc(key);
      assert MeterKeys(key)[..|Durations|] == MeterKeys(key);
      groupedSensors := Dict.Put(groupedSensors, key + "consumption", [d.name + " Consumption"] + grouped);
      PutNamed(old(groupedSensors), key + "consumption", [d.name + " Consumption"] + grouped);
    }

    /**
     * The entries of a temperature-class device, each recorded as a
     * temperature-class name; humidity and wind devices are grouped.
     */
    method GenTempSensorList(d: Device, toF: bool) returns (data: seq<Doc>)
      requires Valid()
      modifies this
      ensures Valid()
      ensures data == TempSensorDocs(d, toF)
      ensures State() == TempStep(old(State()), d, toF)
    {
      data := [];
      data := TemperatureBlock(d, toF, data);
      data := HumidityBlock(d, data);
      HumidityGroupExists(old(State()), d, toF);
      data := BarometerBlock(d, data);
      data := WindBlock(d, toF, data);
      TempDocsParts(d, toF);
    }

    method TemperatureBlock(d: Device, toF: bool, data: seq<Doc>) returns (data': seq<Doc>)
      requires Valid()
      modifies this
      ensures Valid()
      ensures data' == data + SpecConfigs(d, TemperatureSpecs(d.typ, toF))
      ensures State() == TemperatureStep(old(State()), d, toF)
    {
      data' := data;
      if Contains(d.typ, "Temp") {
        var sp := TemperatureSpec(toF);
        data' := data' + [SpecConfig(d, sp)];
        tempSensors := tempSensors + [d.name + sp.suffix];
      }
    }

    method HumidityBlock(d: Device, data: seq<Doc>) returns (data': seq<Doc>)
      requires Valid()
      modifies this
      ensures Valid()
      ensures data' == data + SpecConfigs(d, HumiditySpecs(d.typ))
      ensures State() == HumidityStep(old(State()), d)
    {
      data' := data;
      if Contains(d.typ, "Humidity") {
        var sp := HumiditySpec;
        data' := data' + [SpecConfig(d, sp)];
        tempSensors := tempSensors + [d.name + sp.suffix];
        var key := ReplaceChar(d.name, ' ', '_');
        var members := [d.name, d.name + sp.suffix, d.name + "_temperature"];
        PutNamed(groupedSensors, key, members);
        groupedSensors := Dict.Put(groupedSensors, key, members);
      }
    }

    method BarometerBlock(d: Device, data: seq<Doc>) returns (data': seq<Doc>)
      requires Valid()
      requires d.typ == "Temp + Humidity + Baro" ==> Dict.Get(groupedSensors, TempKey(d)).Some?
      modifies this
      ensures Valid()
      ensures data' == data + SpecConfigs(d, BarometerSpecs(d.typ))
      ensures State() == BarometerStep(old(State()), d)
    {
      data' := data;
      if d.typ == "Temp + Humidity + Baro" {
        var sp := BarometerSpec;
        data' := data' + [SpecConfig(d, sp)];
        tempSensors := tempSensors + [d.name + sp.suffix];
        var key := ReplaceChar(d.name, ' ', '_');
        var members := Dict.Get(groupedSensors, key).value + [d.name + sp.suffix];
        PutNamed(groupedSensors, key, members);
        groupedSensors := Dict.Put(groupedSensors, key, members);
      }
    }

    method WindBlock(d: Device, toF: bool, data: seq<Doc>) returns (data': seq<Doc>)
      requires Valid()
      modifies this
      ensures Valid()
      ensures data' == data + SpecConfigs(d, WindSpecs(d.typ, toF))
      ensures State() == WindStep(old(State()), d, toF)
    {
      data' := data;
      if d.typ == "Wind" {
        var s, g, c, dir := WindSpeedSpec, WindGustSpec, WindChillSpec(toF), DirectionSpec;
        data' := data' + [SpecConfig(d, s)];
        data' := data' + [SpecConfig(d, g)];
        data' := data' + [SpecConfig(d, c)];
        data' := data' + [SpecConfig(d, dir)];
        assert SpecConfigs(d, [s, g, c, dir]) == [SpecConfig(d, s), SpecConfig(d, g), SpecConfig(d, c), SpecConfig(d, dir)] by {
          WindSpecsUnfold(d, s, g, c, dir);
        }
        var names := [d.name + s.suffix, d.name + g.suffix, d.name + c.suffix, d.name + dir.suffix];
        WindSpecsUnfold(d, s, g, c, dir);
        tempSensors := tempSensors + names;
        var key := ReplaceChar(d.name, ' ', '_');
        var members := [d.name, names[0], names[1], names[2], names[3]];
        PutNamed(groupedSensors, key, members);
        groupedSensors := Dict.Put(groupedSensors, key, members);
      }
    }

    /** The loop that writes one group entry per grouped key. */
    method GenGroupedSensors() returns (data: Doc)
      requires Valid()
      ensures data == GroupedSensorsDoc(groupedSensors)
    {
      data := [];
      for i := 0 to |groupedSensors|
        invariant GroupsNamed(groupedSensors[..i])
        invariant data == GroupedSensorsDoc(groupedSensors[..i])
      {
        var (name, items) := groupedSensors[i];
        assert groupedSensors[..i + 1][..i] == groupedSensors[..i];
        data := Dict.Put(data, ConvertName(name), GroupEntry(items));
      }
      assert groupedSensors[..|groupedSensors|] == groupedSensors;
    }

    /**
     * The catch-all groups. The nested loop takes, for each member of each
     * group, its first occurrence out of the candidate list.
     */
    method GenGroups() returns (data: Doc)
      ensures data == GroupsDoc(State())
    {
      var l := tempSensors + motionSensors + doorSensors;
      for i := 0 to |groupedSensors|
        invariant l == RemoveEach(Candidates(State()), Flatten(groupedSensors[..i]))
      {
        var members := groupedSensors[i].1;
        assert Flatten(groupedSensors[..i + 1]) == Flatten(groupedSensors[..i]) + members by {
          assert groupedSensors[..i + 1][..i] == groupedSensors[..i];
        }
        l := RemoveMembers(l, Candidates(State()), Flatten(groupedSensors[..i]), members);
      }
      assert groupedSensors[..|groupedSensors|] == groupedSensors;
      var sensors := Prefixed("sensor.", l) + Prefixed("group.", Dict.Keys(groupedSensors));
      data := [("sensors", Fields([("name", Str("Sensors")), ("entities", Items(sensors))])),
               ("lights", Fields([("name", Str("Lights")), ("entities", Items(Prefixed("light.", lightSwitches)))]))];
    }
  }

  /** The inner loop of `GenGroups`: each member of one group taken off the remaining candidates. */
  method RemoveMembers(l: seq<string>, ghost cands: seq<string>, ghost done: seq<string>, members: seq<string>)
    returns (r: seq<string>)
    requires l == RemoveEach(cands, done)
    ensures r == RemoveEach(cands, done + members)
  {
    r := l;
    assert done + members[..0] == done;
    for j := 0 to |members|
      invariant r == RemoveEach(cands, done + members[..j])
    {
      var x := members[j];
      assert (done + members[..j + 1])[..|done + members[..j]|] == done + members[..j];
      var _ := RemoveFirstSpec(r, x);
      if x in r {
        r := RemoveFirst(r, x);
      }
    }
    assert members[..|members|] == members;
  }

  /** Assigning a group with a display name keeps every group named. */
  lemma {:induction false} PutNamed(g: Dict.Dict<string, seq<string>>, k: string, v: seq<string>)
    requires GroupsNamed(g) && |v| >= 1
    ensures GroupsNamed(Dict.Put(g, k, v))
  {
    if g != [] && g[0].0 != k {
      assert GroupsNamed(g[1..]);
      PutNamed(g[1..], k, v);
    }
  }

  lemma WindSpecsUnfold(d: Device, s: SensorSpec, g: SensorSpec, c: SensorSpec, dir: SensorSpec)
    ensures SpecConfigs(d, [s, g, c, dir]) == [SpecConfig(d, s), SpecConfig(d, g), SpecConfig(d, c), SpecConfig(d, dir)]
    ensures SpecNames(d, [s, g, c, dir]) == [d.name + s.suffix, d.name + g.suffix, d.name + c.suffix, d.name + dir.suffix]
  {
    SpecsAppend(d, [s, g], [c, dir]);
    SpecsAppend(d, [s], [g]);
    SpecsAppend(d, [c], [dir]);
    assert [s, g] + [c, dir] == [s, g, c, dir];
    assert [s] + [g] == [s, g];
    assert [c] + [dir] == [c, dir];
  }

  /** The entries of the four blocks together are the device's entries. */
  lemma TempDocsParts(d: Device, toF: bool)
    ensures TempSensorDocs(d, toF) == [] + SpecConfigs(d, TemperatureSpecs(d.typ, toF)) + SpecConfigs(d, HumiditySpecs(d.typ))
                                    + SpecConfigs(d, BarometerSpecs(d.typ)) + SpecConfigs(d, WindSpecs(d.typ, toF))
  {
    SpecsAppend4(d, TemperatureSpecs(d.typ, toF), HumiditySpecs(d.typ), BarometerSpecs(d.typ), WindSpecs(d.typ, toF));
  }
}
