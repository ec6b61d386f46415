/**
 * How GetThermostats finds its thermostats: the cluster keys taken from the
 * Z-Wave thermostat records, the devices gathered under each key, and the
 * role slot each gathered device fills.
 */
module Clusters {
  import opened Wrappers
  import opened Strings
  import opened Docs
  import opened ModeMaps

  /** Only a `Thermostat` record on Z-Wave hardware contributes a cluster key. */
  predicate ContributesKey(d: Device) {
    d.typ == "Thermostat" && Contains(d.hardwareType, "ZWave")
  }

  /** The key such a record contributes: its ID without leading zeros, cut to two characters. */
  function ClusterKey(d: Device): (k: string)
    ensures |k| <= 2 && StartsWith(LStrip(d.id, '0'), k)
  {
    Take(LStrip(d.id, '0'), 2)
  }

  /** The keys in record order, repeats included (the list before it becomes a set). */
  function KeyList(devs: seq<Device>): (r: seq<string>)
    ensures |r| <= |devs|
  {
    if devs == [] then []
    else
      var init := KeyList(devs[..|devs| - 1]);
      var d := devs[|devs| - 1];
      if ContributesKey(d) then init + [ClusterKey(d)] else init
  }

  /** A key is listed exactly when some contributing record has it. */
  lemma {:induction false} KeyListMembers(devs: seq<Device>, k: string)
    ensures k in KeyList(devs) <==> exists d :: d in devs && ContributesKey(d) && ClusterKey(d) == k
  {
    if devs != [] {
      var init := devs[..|devs| - 1];
      KeyListMembers(init, k);
      assert devs == init + [devs[|devs| - 1]];
      if k in KeyList(devs) && k !in KeyList(init) {
        assert devs[|devs| - 1] in devs;
      }
    }
  }

  /** The set of cluster keys; its iteration order is not fixed. */
  function KeySet(devs: seq<Device>): set<string> {
    set k | k in KeyList(devs)
  }

  /** A record belongs to the cluster of `key` when its zero-stripped ID starts with `key`. */
  predicate InCluster(d: Device, key: string) {
    StartsWith(LStrip(d.id, '0'), key)
  }

  /** The records of one cluster, in record order. */
  function Members(devs: seq<Device>, key: string): seq<Device> {
    if devs == [] then []
    else if InCluster(devs[0], key) then [devs[0]] + Members(devs[1..], key)
    else Members(devs[1..], key)
  }

  /** The members are exactly the records in the cluster, in record order. */
  lemma {:induction false} MembersSpec(devs: seq<Device>, key: string, d: Device)
    ensures d in Members(devs, key) <==> d in devs && InCluster(d, key)
  {
    if devs != [] {
      MembersSpec(devs[1..], key, d);
      assert devs == [devs[0]] + devs[1..];
    }
  }

  /** Each thermostat record that contributes a key is a member of that key's own cluster. */
  lemma OwnCluster(devs: seq<Device>, d: Device)
    requires d in devs && ContributesKey(d)
    ensures ClusterKey(d) in KeySet(devs) && d in Members(devs, ClusterKey(d))
  {
    KeyListMembers(devs, ClusterKey(d));
    MembersSpec(devs, ClusterKey(d), d);
  }

  /** The role a cluster member plays, decided by the first test that holds. */
  datatype Role = ModeControl | FanControl | Setpoint | Temperature | OperatingState | NoRole

  function RoleOf(d: Device): Role {
    if d.subType == "Thermostat Mode" then ModeControl
    else if d.subType == "Thermostat Fan Mode" then FanControl
    else if d.subType == "SetPoint" then Setpoint
    else if d.typ == "Temp" then Temperature
    else if d.subType == "Thermostat Operating State" then OperatingState
    else NoRole
  }

  /** The words that mark a setpoint as the heating one. */
  const HeatWords := ["heat", "warm", "fire", "setpoint", "target"]

  /** A setpoint whose lower-cased name has a heating word and no `econ`. */
  predicate HeatingSetpoint(name: string) {
    var n := Lower(name);
    (exists j :: 0 <= j < |HeatWords| && Contains(n, HeatWords[j])) && !Contains(n, "econ")
  }

  /**
   * The slots a cluster fills. There is no cooling-setpoint slot: the
   * source declares one and never assigns it.
   */
  datatype Slots = Slots(
    tModes: ModeMap,
    fModes: ModeMap,
    tmodeIdx: Option<string>,
    fmodeIdx: Option<string>,
    hsetIdx: Option<string>,
    tIdx: Option<string>,
    tstateIdx: Option<string>)

  const NoSlots := Slots(EmptyModeMap, EmptyModeMap, None, None, None, None, None)

  /** One member entered into its slot; a later member of the same role overwrites. */
  function ClassifyStep(s: Slots, d: Device): Result<Slots, Error> {
    match RoleOf(d)
    case ModeControl =>
      if d.modes.None? then Err(MissingModes(d.idx))
      else
        (match ModeMapOf(d.modes.value, true)
         case Err(e) => Err(e)
         case Ok(mm) => Ok(s.(tModes := mm, tmodeIdx := Some(d.idx))))
    case FanControl =>
      if d.modes.None? then Err(MissingModes(d.idx))
      else
        (match ModeMapOf(d.modes.value, false)
         case Err(e) => Err(e)
         case Ok(mm) => Ok(s.(fModes := mm, fmodeIdx := Some(d.idx))))
    case Setpoint => Ok(if HeatingSetpoint(d.name) then s.(hsetIdx := Some(d.idx)) else s)
    case Temperature => Ok(s.(tIdx := Some(d.idx)))
    case OperatingState => Ok(s.(tstateIdx := Some(d.idx)))
    case NoRole => Ok(s)
  }

  /** The slots after the first `n` members. */
  function Classify(ms: seq<Device>, n: nat): Result<Slots, Error>
    requires n <= |ms|
  {
    if n == 0 then Ok(NoSlots)
    else
      match Classify(ms, n - 1)
      case Err(e) => Err(e)
      case Ok(s) => ClassifyStep(s, ms[n - 1])
  }

  /**
   * The loop over a cluster's members: an if/elif chain on each member,
   * with an inner loop over the heating words for a setpoint.
   */
  method ClassifyCluster(ms: seq<Device>) returns (r: Result<Slots, Error>)
    ensures r == Classify(ms, |ms|)
  {
    var slots := NoSlots;
    for i := 0 to |ms|
      invariant Classify(ms, i) == Ok(slots)
    {
      var step := ClassifyMember(slots, ms[i]);
      ClassifyNext(ms, i, slots);
      if step.Err? {
        r := step;
        ClassifyErrorSticks(ms, i + 1, |ms|);
        return;
      }
      slots := step.value;
    }
    r := Ok(slots);
  }

  lemma ClassifyNext(ms: seq<Device>, n: nat, s: Slots)
    requires n < |ms| && Classify(ms, n) == Ok(s)
    ensures Classify(ms, n + 1) == ClassifyStep(s, ms[n])
  {
  }

  /** The body of the member loop: the if/elif chain on one member. */
  method ClassifyMember(slots: Slots, dev: Device) returns (r: Result<Slots, Error>)
    ensures r == ClassifyStep(slots, dev)
  {
    if dev.subType == "Thermostat Mode" {
      if dev.modes.None? {
        return Err(MissingModes(dev.idx));
      }
      var mm := ParseModes(dev.modes.value, true);
      if mm.Err? {
        return Err(mm.error);
      }
      r := Ok(slots.(tModes := mm.value, tmodeIdx := Some(dev.idx)));
    } else if dev.subType == "Thermostat Fan Mode" {
      if dev.modes.None? {
        return Err(MissingModes(dev.idx));
      }
      var mm := ParseModes(dev.modes.value, false);
      if mm.Err? {
        return Err(mm.error);
      }
      r := Ok(slots.(fModes := mm.value, fmodeIdx := Some(dev.idx)));
    } else if dev.subType == "SetPoint" {
      var heating := ScanHeatWords(Lower(dev.name));
      r := Ok(if heating then slots.(hsetIdx := Some(dev.idx)) else slots);
    } else if dev.typ == "Temp" {
      r := Ok(slots.(tIdx := Some(dev.idx)));
    } else if dev.subType == "Thermostat Operating State" {
      r := Ok(slots.(tstateIdx := Some(dev.idx)));
    } else {
      r := Ok(slots);
    }
  }

  /** The inner loop over the heating words for a setpoint's lower-cased name. */
  method ScanHeatWords(name: string) returns (heating: bool)
    ensures heating == ((exists k :: 0 <= k < |HeatWords| && Contains(name, HeatWords[k])) && !Contains(name, "econ"))
  {
    heating := false;
    for j := 0 to |HeatWords|
      invariant heating == ((exists k :: 0 <= k < j && Contains(name, HeatWords[k])) && !Contains(name, "econ"))
    {
      if Contains(name, HeatWords[j]) {
        if !Contains(name, "econ") {
          heating := true;
        }
      }
    }
  }

  /** Once a member has raised, the later members are never looked at. */
  lemma {:induction false} ClassifyErrorSticks(ms: seq<Device>, n: nat, n': nat)
    requires n <= n' <= |ms|
    requires Classify(ms, n).Err?
    ensures Classify(ms, n') == Classify(ms, n)
    decreases n' - n
  {
    if n < n' {
      ClassifyErrorSticks(ms, n, n' - 1);
    }
  }

  /** The idx of the last of the first `n` members that plays `role`. */
  function LastIdx(ms: seq<Device>, n: nat, role: Role): (r: Option<string>)
    requires n <= |ms|
    ensures r.Some? <==> exists j :: 0 <= j < n && RoleOf(ms[j]) == role
  {
    if n == 0 then None
    else if RoleOf(ms[n - 1]) == role then Some(ms[n - 1].idx)
    else LastIdx(ms, n - 1, role)
  }

  /** The idx of the last of the first `n` members that is a heating setpoint. */
  function LastHeatingIdx(ms: seq<Device>, n: nat): (r: Option<string>)
    requires n <= |ms|
    ensures r.Some? <==> exists j :: 0 <= j < n && RoleOf(ms[j]) == Setpoint && HeatingSetpoint(ms[j].name)
  {
    if n == 0 then None
    else if RoleOf(ms[n - 1]) == Setpoint && HeatingSetpoint(ms[n - 1].name) then Some(ms[n - 1].idx)
    else LastHeatingIdx(ms, n - 1)
  }

  /**
   * Each slot holds the idx of the last member of its role (for the heating
   * setpoint, the last heating setpoint), and nothing when there is none:
   * the roles are exclusive and a later member wins.
   */
  lemma {:induction false} ClassifySlots(ms: seq<Device>, n: nat)
    requires n <= |ms| && Classify(ms, n).Ok?
    ensures var s := Classify(ms, n).value;
      && s.tmodeIdx == LastIdx(ms, n, ModeControl)
      && s.fmodeIdx == LastIdx(ms, n, FanControl)
      && s.tIdx == LastIdx(ms, n, Temperature)
      && s.tstateIdx == LastIdx(ms, n, OperatingState)
      && s.hsetIdx == LastHeatingIdx(ms, n)
  {
    if n > 0 {
      ClassifySlots(ms, n - 1);
      StepSlots(Classify(ms, n - 1).value, ms[n - 1]);
    }
  }

  /** One member sets the slot of its role (a setpoint only when heating) and leaves the others. */
  lemma StepSlots(s: Slots, d: Device)
    requires ClassifyStep(s, d).Ok?
    ensures var r := ClassifyStep(s, d).value;
      && r.tmodeIdx == (if RoleOf(d) == ModeControl then Some(d.idx) else s.tmodeIdx)
      && r.fmodeIdx == (if RoleOf(d) == FanControl then Some(d.idx) else s.fmodeIdx)
      && r.tIdx == (if RoleOf(d) == Temperature then Some(d.idx) else s.tIdx)
      && r.tstateIdx == (if RoleOf(d) == OperatingState then Some(d.idx) else s.tstateIdx)
      && r.hsetIdx == (if RoleOf(d) == Setpoint && HeatingSetpoint(d.name) then Some(d.idx) else s.hsetIdx)
  {
  }

  /**
   * A `SetPoint` member never falls through to the temperature test: a
   * cluster whose only `Temp`-typed members are setpoints has no
   * temperature slot.
   */
  lemma SetpointNeverTemperature(ms: seq<Device>, n: nat)
    requires n <= |ms| && Classify(ms, n).Ok?
    requires forall j :: 0 <= j < n && ms[j].typ == "Temp" ==> ms[j].subType == "SetPoint"
    ensures Classify(ms, n).value.tIdx == None
  {
    ClassifySlots(ms, n);
  }

  lemma {:induction false} LastIdxWitness(ms: seq<Device>, n: nat, role: Role)
    requires n <= |ms|
    ensures LastIdx(ms, n, role).Some? ==>
      exists k :: 0 <= k < n && RoleOf(ms[k]) == role && ms[k].idx == LastIdx(ms, n, role).value
  {
    if n > 0 && RoleOf(ms[n - 1]) != role {
      LastIdxWitness(ms, n - 1, role);
    }
  }

  /**
   * Classification succeeds exactly when every mode and fan-mode member has
   * a `Modes` string whose kept codes all parse.
   */
  lemma {:induction false} ClassifyOk(ms: seq<Device>, n: nat)
    requires n <= |ms|
    ensures Classify(ms, n).Ok? <==> forall j :: 0 <= j < n ==> MemberParses(ms[j])
  {
    if n > 0 {
      ClassifyOk(ms, n - 1);
      if Classify(ms, n - 1).Err? {
        ClassifyErrorSticks(ms, n - 1, n);
      }
    }
  }

  predicate MemberParses(d: Device) {
    match RoleOf(d)
    case ModeControl => d.modes.Some? && ModeMapOf(d.modes.value, true).Ok?
    case FanControl => d.modes.Some? && ModeMapOf(d.modes.value, false).Ok?
    case _ => true
  }
}
