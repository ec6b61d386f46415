/**
 * The generator's main run: a pass over the light-class devices, one over
 * the temperature-class devices, one over the utility devices, the
 * thermostat pass and the start-up rule, and finally the groups file built
 * from what the passes recorded. The hub's device queries are inputs; the
 * files written are the documents of `Out`.
 */
module Dispatch {
  import opened Wrappers
  import opened Strings
  import opened Docs
  import opened Builders
  import opened Accumulators
  import opened Clusters
  import opened Thermostats
  import Dict

  /** The answers of the hub's device queries the run makes. */
  datatype Queries = Queries(
    lights: seq<Device>,    // filter `light`
    temps: seq<Device>,     // filter `temp`
    utilities: seq<Device>, // filter `utility`
    all: seq<Device>,       // no filter, as the thermostat pass asks
    startup: seq<Device>)   // filter `all`, unused devices included

  /** The documents of the output files. */
  datatype Out = Out(
    automation: seq<Value>,
    lights: seq<Doc>,
    binarySensors: seq<Doc>,
    sensors: seq<Doc>,
    power: seq<Doc>,
    utility: Doc,
    climate: seq<Doc>,
    locks: seq<Doc>,
    groups: Doc)

  const NoOut := Out([], [], [], [], [], [], [], [], [])

  /** The output lists and the accumulators part-way through a run. */
  datatype Progress = Progress(out: Out, lists: Lists)

  /** The delimiter each file is spaced by, as the run writes them. */
  const Delimiters := [("automations", "alias"), ("lights", "name"), ("binary sensors", "name"),
                       ("sensors", "name"), ("power", "name"), ("utility meters", "____"),
                       ("climate", "platform"), ("locks", "name"), ("groups", "____")]

  // The light pass

  const BinaryTypes := ["Motion Sensor", "Door Contact", "Contact"]
  const LightTypes := ["On/Off", "Dimmer", "Push On Button"]

  /** A device skipped because its hardware is on the comma-separated ignore list. */
  predicate Ignored(d: Device, ignoreTypes: string) {
    ignoreTypes != "" && d.hardwareName in Split(ignoreTypes, ',')
  }

  function BinaryPart(p: Progress, d: Device): (r: Progress)
    ensures r.lists.grouped == p.lists.grouped && SameOutside(r.out, p.out)
  {
    if d.switchType in BinaryTypes then
      Progress(p.out.(automation := p.out.automation + [Fields(BinarySensorRule(d))],
                      binarySensors := p.out.binarySensors + [BinarySensorConfig(d)]),
               BinaryStep(p.lists, d))
    else p
  }

  function LightPart(p: Progress, d: Device): (r: Progress)
    ensures r.lists.grouped == p.lists.grouped && SameOutside(r.out, p.out)
  {
    if d.switchType in LightTypes then
      Progress(p.out.(automation := p.out.automation + [Fields(LightRule(d))],
                      lights := p.out.lights + [LightConfig(d)]),
               LightStep(p.lists, d))
    else p
  }

  function DimmerPart(p: Progress, d: Device): (r: Progress)
    ensures r.lists.grouped == p.lists.grouped && SameOutside(r.out, p.out)
  {
    if d.switchType == "Dimmer" then p.(out := p.out.(automation := p.out.automation + [Fields(DimmerRule(d))]))
    else p
  }

  function LockPart(p: Progress, d: Device): (r: Progress)
    ensures r.lists.grouped == p.lists.grouped && SameOutside(r.out, p.out)
  {
    if d.switchType == "Door Lock" then
      p.(out := p.out.(automation := p.out.automation + [Fields(LockRule(d))], locks := p.out.locks + [LockConfig(d)]))
    else p
  }

  /** What one light-class device contributes, the four checks in order. */
  function LightDevice(p: Progress, d: Device, ignoreTypes: string): Progress {
    if Ignored(d, ignoreTypes) then p
    else LockPart(DimmerPart(LightPart(BinaryPart(p, d), d), d), d)
  }

  function LightPass(p: Progress, devs: seq<Device>, ignoreTypes: string): Progress {
    if devs == [] then p
    else LightDevice(LightPass(p, devs[..|devs| - 1], ignoreTypes), devs[|devs| - 1], ignoreTypes)
  }

  // The temperature pass

  /** A rule as an element of the automation list; a missing rule is written as null. */
  function RuleEntry(r: Option<Doc>): Value {
    match r case Some(doc) => Fields(doc) case None => Null
  }

  function TempDevice(p: Progress, d: Device, toF: bool): Progress {
    Progress(p.out.(automation := p.out.automation + [RuleEntry(TempSensorRule(d, toF))],
                    sensors := p.out.sensors + TempSensorDocs(d, toF)),
             TempStep(p.lists, d, toF))
  }

  function TempPass(p: Progress, devs: seq<Device>, toF: bool): Progress {
    if devs == [] then p
    else TempDevice(TempPass(p, devs[..|devs| - 1], toF), devs[|devs| - 1], toF)
  }

  // The utility pass

  function UtilityDevice(p: Progress, d: Device): Progress {
    if d.subType == "kWh" then
      Progress(p.out.(automation := p.out.automation + [Fields(UtilitySensorRule(d))],
                      power := p.out.power + [KwhConfig(d), WattsConfig(d)],
                      utility := Dict.PutAll(p.out.utility, MeterDoc(ConvertName(d.name)))),
               MeterStep(PowerStep(p.lists, d), d))
    else p
  }

  function UtilityPass(p: Progress, devs: seq<Device>): Progress {
    if devs == [] then p
    else UtilityDevice(UtilityPass(p, devs[..|devs| - 1]), devs[|devs| - 1])
  }

  // The whole run

  function AsValues(docs: seq<Doc>): (r: seq<Value>)
    ensures |r| == |docs|
  {
    seq(|docs|, i requires 0 <= i < |docs| => Fields(docs[i]))
  }

  /** The three device passes from an empty start. */
  function DevicePasses(q: Queries, ignoreTypes: string, toF: bool): Progress {
    UtilityPass(TempPass(LightPass(Progress(NoOut, NoLists), q.lights, ignoreTypes), q.temps, toF), q.utilities)
  }

  /** The groups file: the explicit groups, then the catch-all groups put over them. */
  function GroupsFile(s: Lists): Doc
    requires GroupsNamed(s.grouped)
  {
    Dict.PutAll(GroupedSensorsDoc(s.grouped), GroupsDoc(s))
  }

  /**
   * The run for the cluster visiting order `visited`: the device passes,
   * then the thermostat rules and the start-up rule; a thermostat error
   * aborts the run before any file is written.
   */
  function RunSpec(q: Queries, ignoreTypes: string, names: string, toF: bool, visited: seq<string>): Result<Out, Error> {
    var p := DevicePasses(q, ignoreTypes, toF);
    PassesNamed(q, ignoreTypes, toF);
    match AssembleAll(q.all, visited, names, toF)
    case Err(e) => Err(e)
    case Ok(t) =>
      Ok(p.out.(automation := p.out.automation + AsValues(t.automation) + [Fields(StartupRule(q.startup))],
                climate := t.climate,
                groups := GroupsFile(p.lists)))
  }

  // Every group keeps its display name through the passes

  lemma {:induction false} TempPassNamed(p: Progress, devs: seq<Device>, toF: bool)
    requires GroupsNamed(p.lists.grouped)
    ensures GroupsNamed(TempPass(p, devs, toF).lists.grouped)
  {
    if devs != [] {
      var init := TempPass(p, devs[..|devs| - 1], toF);
      TempPassNamed(p, devs[..|devs| - 1], toF);
      TempStepNamed(init.lists, devs[|devs| - 1], toF);
    }
  }

  lemma TempStepNamed(s: Lists, d: Device, toF: bool)
    requires GroupsNamed(s.grouped)
    ensures GroupsNamed(TempStep(s, d, toF).grouped)
  {
    var s1 := HumidityStep(TemperatureStep(s, d, toF), d);
    if Contains(d.typ, "Humidity") {
      PutNamed(s.grouped, TempKey(d), HumidityMembers(d));
    }
    HumidityGroupExists(s, d, toF);
    var s2 := BarometerStep(s1, d);
    if d.typ == "Temp + Humidity + Baro" {
      PutNamed(s1.grouped, TempKey(d), Dict.Get(s1.grouped, TempKey(d)).value + [d.name + "_barometer"]);
    }
    if d.typ == "Wind" {
      PutNamed(s2.grouped, TempKey(d), WindMembers(d));
    }
  }

  lemma {:induction false} UtilityPassNamed(p: Progress, devs: seq<Device>)
    requires GroupsNamed(p.lists.grouped)
    ensures GroupsNamed(UtilityPass(p, devs).lists.grouped)
  {
    if devs != [] {
      var init := UtilityPass(p, devs[..|devs| - 1]);
      var d := devs[|devs| - 1];
      UtilityPassNamed(p, devs[..|devs| - 1]);
      if d.subType == "kWh" {
        var key := ConvertName(d.name);
        PutNamed(init.lists.grouped, key, [d.name, d.name + "_kwh", d.name + "_watts"]);
        PutNamed(PowerStep(init.lists, d).grouped, key + "consumption", [d.name + " Consumption"] + MeterKeys(key));
      }
    }
  }

  /** The light pass never touches the group table. */
  lemma {:induction false} LightPassGroups(p: Progress, devs: seq<Device>, ignoreTypes: string)
    ensures LightPass(p, devs, ignoreTypes).lists.grouped == p.lists.grouped
  {
    if devs != [] {
      LightPassGroups(p, devs[..|devs| - 1], ignoreTypes);
      LightDeviceKeeps(LightPass(p, devs[..|devs| - 1], ignoreTypes), devs[|devs| - 1], ignoreTypes);
    }
  }

  /** A light-class device changes neither the group table nor the files outside the light pass. */
  lemma LightDeviceKeeps(p: Progress, d: Device, ignoreTypes: string)
    ensures LightDevice(p, d, ignoreTypes).lists.grouped == p.lists.grouped
    ensures SameOutside(LightDevice(p, d, ignoreTypes).out, p.out)
  {
  }

  lemma PassesNamed(q: Queries, ignoreTypes: string, toF: bool)
    ensures GroupsNamed(DevicePasses(q, ignoreTypes, toF).lists.grouped)
  {
    var p1 := LightPass(Progress(NoOut, NoLists), q.lights, ignoreTypes);
    LightPassGroups(Progress(NoOut, NoLists), q.lights, ignoreTypes);
    TempPassNamed(p1, q.temps, toF);
    UtilityPassNamed(TempPass(p1, q.temps, toF), q.utilities);
  }

  // What each kind of device contributes

  /** A device whose hardware is ignored contributes nothing. */
  lemma IgnoredDevice(p: Progress, d: Device, ignoreTypes: string)
    requires Ignored(d, ignoreTypes)
    ensures LightDevice(p, d, ignoreTypes) == p
  {
  }

  /** A dimmer gets an on/off rule, a level rule and a light entry, and is recorded as a light. */
  lemma DimmerDevice(p: Progress, d: Device, ignoreTypes: string)
    requires !Ignored(d, ignoreTypes) && d.switchType == "Dimmer"
    ensures LightDevice(p, d, ignoreTypes)
      == Progress(p.out.(automation := p.out.automation + [Fields(LightRule(d)), Fields(DimmerRule(d))],
                         lights := p.out.lights + [LightConfig(d)]),
                  LightStep(p.lists, d))
  {
    assert d.switchType !in BinaryTypes;
    assert d.switchType in LightTypes;
    var q := LightPart(p, d);
    assert BinaryPart(p, d) == p;
    assert q.out.automation == p.out.automation + [Fields(LightRule(d))];
    AppendAssoc(p.out.automation, [Fields(LightRule(d))], [Fields(DimmerRule(d))]);
    assert DimmerPart(q, d).out.automation == p.out.automation + [Fields(LightRule(d)), Fields(DimmerRule(d))];
    assert LockPart(DimmerPart(q, d), d) == DimmerPart(q, d);
  }

  /** A door lock gets a lock rule and a lock entry, and is recorded nowhere. */
  lemma LockDevice(p: Progress, d: Device, ignoreTypes: string)
    requires !Ignored(d, ignoreTypes) && d.switchType == "Door Lock"
    ensures LightDevice(p, d, ignoreTypes)
      == p.(out := p.out.(automation := p.out.automation + [Fields(LockRule(d))], locks := p.out.locks + [LockConfig(d)]))
  {
    assert d.switchType !in BinaryTypes;
    assert d.switchType !in LightTypes;
  }

  /** A motion sensor or contact gets a sensor rule and a binary sensor entry, recorded as motion or door. */
  lemma BinaryDevice(p: Progress, d: Device, ignoreTypes: string)
    requires !Ignored(d, ignoreTypes) && d.switchType in BinaryTypes
    ensures LightDevice(p, d, ignoreTypes)
      == Progress(p.out.(automation := p.out.automation + [Fields(BinarySensorRule(d))],
                         binarySensors := p.out.binarySensors + [BinarySensorConfig(d)]),
                  BinaryStep(p.lists, d))
  {
    assert d.switchType !in LightTypes;
  }

  /** Any other switch type contributes nothing. */
  lemma OtherDevice(p: Progress, d: Device, ignoreTypes: string)
    requires d.switchType !in BinaryTypes && d.switchType !in LightTypes && d.switchType != "Door Lock"
    ensures LightDevice(p, d, ignoreTypes) == p
  {
    assert d.switchType != "Dimmer";
  }

  /** One device of the temperature pass: its rule (or `null`) and its entries are appended. */
  lemma TempPassLast(p: Progress, devs: seq<Device>, toF: bool)
    requires devs != []
    ensures var q, last := TempPass(p, devs[..|devs| - 1], toF), devs[|devs| - 1];
      && TempPass(p, devs, toF).out.automation == q.out.automation + [RuleEntry(TempSensorRule(last, toF))]
      && TempPass(p, devs, toF).out.sensors == q.out.sensors + TempSensorDocs(last, toF)
  {
  }

  /** `a` extends `base` with one entry per device: its rule, or `null` for a device outside the class. */
  ghost predicate RulesFor(a: seq<Value>, base: seq<Value>, devs: seq<Device>, toF: bool) {
    && |a| == |base| + |devs|
    && a[..|base|] == base
    && forall i :: 0 <= i < |devs| ==>
         && a[|base| + i] == RuleEntry(TempSensorRule(devs[i], toF))
         && (a[|base| + i] == Null <==> devs[i].typ !in TempTypes)
  }

  lemma RulesForSnoc(a0: seq<Value>, base: seq<Value>, devs: seq<Device>, toF: bool)
    requires devs != [] && RulesFor(a0, base, devs[..|devs| - 1], toF)
    ensures RulesFor(a0 + [RuleEntry(TempSensorRule(devs[|devs| - 1], toF))], base, devs, toF)
  {
    var init := devs[..|devs| - 1];
    var a := a0 + [RuleEntry(TempSensorRule(devs[|devs| - 1], toF))];
    assert a[..|base|] == a0[..|base|];
    forall i | 0 <= i < |devs|
      ensures a[|base| + i] == RuleEntry(TempSensorRule(devs[i], toF))
      ensures a[|base| + i] == Null <==> devs[i].typ !in TempTypes
    {
      if i < |init| {
        assert init[i] == devs[i];
        assert a[|base| + i] == a0[|base| + i];
      }
      NullRule(devs[i], toF);
    }
  }

  lemma NullRule(d: Device, toF: bool)
    ensures RuleEntry(TempSensorRule(d, toF)) == Null <==> d.typ !in TempTypes
  {
  }

  /** The temperature pass appends one automation entry per device, in device order. */
  lemma {:induction false} TempPassRules(p: Progress, devs: seq<Device>, toF: bool)
    ensures RulesFor(TempPass(p, devs, toF).out.automation, p.out.automation, devs, toF)
  {
    if devs != [] {
      var init := devs[..|devs| - 1];
      TempPassRules(p, init, toF);
      TempPassLast(p, devs, toF);
      RulesForSnoc(TempPass(p, init, toF).out.automation, p.out.automation, devs, toF);
    }
  }

  /** The entries of the temperature-class devices, in device order. */
  function AllTempDocs(devs: seq<Device>, toF: bool): seq<Doc> {
    if devs == [] then [] else AllTempDocs(devs[..|devs| - 1], toF) + TempSensorDocs(devs[|devs| - 1], toF)
  }

  lemma AllTempDocsLast(devs: seq<Device>, toF: bool)
    requires devs != []
    ensures AllTempDocs(devs, toF) == AllTempDocs(devs[..|devs| - 1], toF) + TempSensorDocs(devs[|devs| - 1], toF)
  {
  }

  /** The sensors file holds every temperature-class entry the pass wrote, device by device. */
  lemma {:induction false} TempPassSensors(p: Progress, devs: seq<Device>, toF: bool)
    ensures TempPass(p, devs, toF).out.sensors == p.out.sensors + AllTempDocs(devs, toF)
  {
    if devs != [] {
      var init, last := devs[..|devs| - 1], devs[|devs| - 1];
      TempPassSensors(p, init, toF);
      TempPassLast(p, devs, toF);
      AllTempDocsLast(devs, toF);
      AppendAssoc(p.out.sensors, AllTempDocs(init, toF), TempSensorDocs(last, toF));
    }
  }

  /**
   * A kWh device gets its meter rule and its two power entries, and the
   * utility file gets its five meters under their keys.
   */
  lemma KwhDevice(p: Progress, d: Device)
    requires d.subType == "kWh"
    ensures var r := UtilityDevice(p, d).out;
      && r.automation == p.out.automation + [Fields(UtilitySensorRule(d))]
      && r.power == p.out.power + [KwhConfig(d), WattsConfig(d)]
      && forall i :: 0 <= i < |Durations| ==>
           Dict.Get(r.utility, MeterKey(ConvertName(d.name), Durations[i]))
             == Some(MeterEntry(ConvertName(d.name), Durations[i]))
  {
    var key := ConvertName(d.name);
    var m := MeterDoc(key);
    MeterEntries(key);
    forall i | 0 <= i < |Durations|
      ensures Dict.Get(UtilityDevice(p, d).out.utility, MeterKey(key, Durations[i])) == Some(MeterEntry(key, Durations[i]))
    {
      Dict.PutAllGet(p.out.utility, m, m[i].0);
      assert Dict.Keys(m)[i] == m[i].0;
      Dict.GetIndex(m, i);
    }
  }

  /** A utility device that is not a kWh meter contributes nothing. */
  lemma OtherUtility(p: Progress, d: Device)
    requires d.subType != "kWh"
    ensures UtilityDevice(p, d) == p
  {
  }

  // Which outputs the ignore list can change

  /** The outputs the light pass does not write. */
  predicate SameOutside(a: Out, b: Out) {
    a.sensors == b.sensors && a.power == b.power && a.utility == b.utility && a.climate == b.climate
  }

  lemma {:induction false} LightPassOutside(p: Progress, devs: seq<Device>, ignoreTypes: string)
    ensures SameOutside(LightPass(p, devs, ignoreTypes).out, p.out)
  {
    if devs != [] {
      LightPassOutside(p, devs[..|devs| - 1], ignoreTypes);
      LightDeviceKeeps(LightPass(p, devs[..|devs| - 1], ignoreTypes), devs[|devs| - 1], ignoreTypes);
    }
  }

  lemma {:induction false} TempPassOutside(p: Progress, q: Progress, devs: seq<Device>, toF: bool)
    requires SameOutside(p.out, q.out)
    ensures SameOutside(TempPass(p, devs, toF).out, TempPass(q, devs, toF).out)
  {
    if devs != [] {
      TempPassOutside(p, q, devs[..|devs| - 1], toF);
    }
  }

  lemma {:induction false} UtilityPassOutside(p: Progress, q: Progress, devs: seq<Device>)
    requires SameOutside(p.out, q.out)
    ensures SameOutside(UtilityPass(p, devs).out, UtilityPass(q, devs).out)
  {
    if devs != [] {
      UtilityPassOutside(p, q, devs[..|devs| - 1]);
    }
  }

  /**
   * The ignore list reaches only the light pass: the sensors, power,
   * utility and climate files do not depend on it, and neither does
   * whether the run fails.
   */
  lemma IgnoreScope(q: Queries, ig1: string, ig2: string, names: string, toF: bool, visited: seq<string>)
    ensures RunSpec(q, ig1, names, toF, visited).Ok? == RunSpec(q, ig2, names, toF, visited).Ok?
    ensures RunSpec(q, ig1, names, toF, visited).Ok? ==>
      SameOutside(RunSpec(q, ig1, names, toF, visited).value, RunSpec(q, ig2, names, toF, visited).value)
  {
    RunOutcome(q, ig1, names, toF, visited);
    RunOutcome(q, ig2, names, toF, visited);
    DevicePassesOutside(q, ig1, ig2, toF);
  }

  lemma DevicePassesOutside(q: Queries, ig1: string, ig2: string, toF: bool)
    ensures SameOutside(DevicePasses(q, ig1, toF).out, DevicePasses(q, ig2, toF).out)
  {
    var start := Progress(NoOut, NoLists);
    var l1, l2 := LightPass(start, q.lights, ig1), LightPass(start, q.lights, ig2);
    LightPassOutside(start, q.lights, ig1);
    LightPassOutside(start, q.lights, ig2);
    TempPassOutside(l1, l2, q.temps, toF);
    UtilityPassOutside(TempPass(l1, q.temps, toF), TempPass(l2, q.temps, toF), q.utilities);
  }

  /**
   * A run fails exactly when the thermostat pass fails; otherwise the
   * climate file is the pass's, and the start-up rule is the last rule.
   */
  lemma RunOutcome(q: Queries, ignoreTypes: string, names: string, toF: bool, visited: seq<string>)
    ensures var r, t := RunSpec(q, ignoreTypes, names, toF, visited), AssembleAll(q.all, visited, names, toF);
      && (r.Err? <==> t.Err?)
      && (r.Err? ==> r.error == t.error)
      && (r.Ok? ==>
            && r.value.climate == t.value.climate
            && SameOutside(r.value, DevicePasses(q, ignoreTypes, toF).out.(climate := t.value.climate))
            && |r.value.automation| >= 1
            && r.value.automation[|r.value.automation| - 1] == Fields(StartupRule(q.startup)))
  {
  }

  /**
   * In the groups file the catch-all `sensors` and `lights` groups win over
   * an explicit group whose key converts to the same name; every other key
   * is the explicit group's.
   */
  lemma GroupsFileLookup(s: Lists, k: string)
    requires GroupsNamed(s.grouped)
    ensures k == "sensors" || k == "lights" ==> Get(GroupsFile(s), k) == Get(GroupsDoc(s), k)
    ensures k != "sensors" && k != "lights" ==> Get(GroupsFile(s), k) == Get(GroupedSensorsDoc(s.grouped), k)
    ensures Get(GroupsFile(s), k).Some? <==> k == "sensors" || k == "lights" || k in Keys(GroupedSensorsDoc(s.grouped))
  {
    var g := GroupsDoc(s);
    assert Dict.Keys(g) == ["sensors", "lights"];
    assert Dict.DistinctKeys(g);
    Dict.PutAllGet(GroupedSensorsDoc(s.grouped), g, k);
    Dict.GetIndex(g, 0);
    Dict.GetIndex(g, 1);
    Dict.GetNone(GroupedSensorsDoc(s.grouped), k);
  }

  // The run, step by step

  /** main's loops over the three device lists, the thermostat pass and the start-up rule. */
  method Run(q: Queries, ignoreTypes: string, names: string, toF: bool)
    returns (r: Result<Out, Error>, ghost visited: seq<string>)
    ensures Enumerates(visited, KeySet(q.all)) && r == RunSpec(q, ignoreTypes, names, toF, visited)
  {
    var ctx := new Context();
    var out := LightPassRun(ctx, q.lights, ignoreTypes, NoOut);
    out := TempPassRun(ctx, q.temps, toF, out);
    out := UtilityPassRun(ctx, q.utilities, out);
    assert Progress(out, ctx.State()) == DevicePasses(q, ignoreTypes, toF);
    var t;
    t, visited := GetThermostats(q.all, names, toF);
    if t.Err? {
      r := Err(t.error);
      return;
    }
    var startup := GenStartupAutomation(q.startup);
    out := out.(automation := out.automation + AsValues(t.value.automation) + [Fields(startup)], climate := t.value.climate);
    var grouped := ctx.GenGroupedSensors();
    var groups := ctx.GenGroups();
    out := out.(groups := Dict.PutAll(grouped, groups));
    r := Ok(out);
  }

  method LightPassRun(ctx: Context, devs: seq<Device>, ignoreTypes: string, out: Out) returns (out': Out)
    requires ctx.Valid()
    modifies ctx
    ensures ctx.Valid()
    ensures Progress(out', ctx.State()) == LightPass(Progress(out, old(ctx.State())), devs, ignoreTypes)
  {
    out' := out;
    for i := 0 to |devs|
      invariant ctx.Valid()
      invariant Progress(out', ctx.State()) == LightPass(Progress(out, old(ctx.State())), devs[..i], ignoreTypes)
    {
      assert devs[..i + 1][..i] == devs[..i];
      out' := LightDeviceRun(ctx, devs[i], ignoreTypes, out');
    }
    assert devs[..|devs|] == devs;
  }

  method TempPassRun(ctx: Context, devs: seq<Device>, toF: bool, out: Out) returns (out': Out)
    requires ctx.Valid()
    modifies ctx
    ensures ctx.Valid()
    ensures Progress(out', ctx.State()) == TempPass(Progress(out, old(ctx.State())), devs, toF)
  {
    out' := out;
    for i := 0 to |devs|
      invariant ctx.Valid()
      invariant Progress(out', ctx.State()) == TempPass(Progress(out, old(ctx.State())), devs[..i], toF)
    {
      assert devs[..i + 1][..i] == devs[..i];
      out' := TempDeviceRun(ctx, devs[i], toF, out');
    }
    assert devs[..|devs|] == devs;
  }

  method UtilityPassRun(ctx: Context, devs: seq<Device>, out: Out) returns (out': Out)
    requires ctx.Valid()
    modifies ctx
    ensures ctx.Valid()
    ensures Progress(out', ctx.State()) == UtilityPass(Progress(out, old(ctx.State())), devs)
  {
    out' := out;
    for i := 0 to |devs|
      invariant ctx.Valid()
      invariant Progress(out', ctx.State()) == UtilityPass(Progress(out, old(ctx.State())), devs[..i])
    {
      assert devs[..i + 1][..i] == devs[..i];
      out' := UtilityDeviceRun(ctx, devs[i], out');
    }
    assert devs[..|devs|] == devs;
  }

  /** One device of the light pass. */
  method LightDeviceRun(ctx: Context, d: Device, ignoreTypes: string, out: Out) returns (out': Out)
    requires ctx.Valid()
    modifies ctx
    ensures ctx.Valid()
    ensures Progress(out', ctx.State()) == LightDevice(Progress(out, old(ctx.State())), d, ignoreTypes)
  {
    out' := out;
    if ignoreTypes != "" && d.hardwareName in Split(ignoreTypes, ',') {
      return;
    }
    out' := BinaryPartRun(ctx, d, out');
    out' := LightPartRun(ctx, d, out');
    if d.switchType == "Dimmer" {
      out' := out'.(automation := out'.automation + [Fields(DimmerRule(d))]);
    }
    if d.switchType == "Door Lock" {
      out' := out'.(automation := out'.automation + [Fields(LockRule(d))], locks := out'.locks + [LockConfig(d)]);
    }
  }

  method BinaryPartRun(ctx: Context, d: Device, out: Out) returns (out': Out)
    requires ctx.Valid()
    modifies ctx
    ensures ctx.Valid()
    ensures Progress(out', ctx.State()) == BinaryPart(Progress(out, old(ctx.State())), d)
  {
    out' := out;
    if d.switchType in BinaryTypes {
      out' := out'.(automation := out'.automation + [Fields(BinarySensorRule(d))]);
      var c := ctx.GenBinarySensor(d);
      out' := out'.(binarySensors := out'.binarySensors + [c]);
    }
  }

  method LightPartRun(ctx: Context, d: Device, out: Out) returns (out': Out)
    requires ctx.Valid()
    modifies ctx
    ensures ctx.Valid()
    ensures Progress(out', ctx.State()) == LightPart(Progress(out, old(ctx.State())), d)
  {
    out' := out;
    if d.switchType in LightTypes {
      out' := out'.(automation := out'.automation + [Fields(LightRule(d))]);
      var c := ctx.GenLightConfigs(d);
      out' := out'.(lights := out'.lights + [c]);
    }
  }

  /** One device of the temperature pass. */
  method TempDeviceRun(ctx: Context, d: Device, toF: bool, out: Out) returns (out': Out)
    requires ctx.Valid()
    modifies ctx
    ensures ctx.Valid()
    ensures Progress(out', ctx.State()) == TempDevice(Progress(out, old(ctx.State())), d, toF)
  {
    out' := out.(automation := out.automation + [RuleEntry(TempSensorRule(d, toF))]);
    var docs := ctx.GenTempSensorList(d, toF);
    out' := out'.(sensors := out'.sensors + docs);
  }

  /** One device of the utility pass. */
  method UtilityDeviceRun(ctx: Context, d: Device, out: Out) returns (out': Out)
    requires ctx.Valid()
    modifies ctx
    ensures ctx.Valid()
    ensures Progress(out', ctx.State()) == UtilityDevice(Progress(out, old(ctx.State())), d)
  {
    out' := out;
    if d.subType == "kWh" {
      out' := out'.(automation := out'.automation + [Fields(UtilitySensorRule(d))]);
      var power := ctx.GenPowerConfigs(d);
      out' := out'.(power := out'.power + power);
      var meters := ctx.GenUtilityMeterConfigs(d);
      out' := out'.(utility := Dict.PutAll(out'.utility, meters));
    }
  }
}
