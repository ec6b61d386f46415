/**
 * GetThermostats: one climate entry and its rules per cluster key, the
 * clusters visited in the (unspecified) iteration order of the key set.
 */
module Thermostats {
  import opened Wrappers
  import opened Strings
  import opened Docs
  import opened Clusters
  import opened Overrides
  import opened Climate

  /** The `climate` and `automation` lists the function returns. */
  datatype ThermostatConfig = ThermostatConfig(automation: seq<Doc>, climate: seq<Doc>)

  /** One cluster's climate entry and rules, or the error its processing raises. */
  function ClusterOutput(devs: seq<Device>, key: string, names: string, toF: bool): Result<(Doc, seq<Doc>), Error> {
    var ms := Members(devs, key);
    match Classify(ms, |ms|)
    case Err(e) => Err(e)
    case Ok(s) =>
      match OverridesOf(names)
      case Err(e) => Err(e)
      case Ok(table) => Ok((ClimateDoc(ClimateName(table, key), s, toF), ClimateRules(s, toF)))
  }

  /** What one cluster contributes. */
  type Output = Result<(Doc, seq<Doc>), Error>

  /** The pass's result from the cluster outputs in visiting order; the first error aborts. */
  function Collect(outs: seq<Output>): Result<ThermostatConfig, Error> {
    if outs == [] then Ok(ThermostatConfig([], []))
    else
      match Collect(outs[..|outs| - 1])
      case Err(e) => Err(e)
      case Ok(acc) =>
        match outs[|outs| - 1]
        case Err(e) => Err(e)
        case Ok(out) => Ok(ThermostatConfig(acc.automation + out.1, acc.climate + [out.0]))
  }

  /** The per-cluster step as a function of the key. */
  function OutputOf(devs: seq<Device>, names: string, toF: bool): string -> Output {
    k => ClusterOutput(devs, k, names, toF)
  }

  function Outputs(devs: seq<Device>, order: seq<string>, names: string, toF: bool): seq<Output> {
    MapSeq(OutputOf(devs, names, toF), order)
  }

  /** The output after visiting the clusters in `order`. */
  function AssembleAll(devs: seq<Device>, order: seq<string>, names: string, toF: bool): Result<ThermostatConfig, Error> {
    Collect(Outputs(devs, order, names, toF))
  }

  ghost predicate NoRepeats(order: seq<string>) {
    forall i, j :: 0 <= i < j < |order| ==> order[i] != order[j]
  }

  /** `order` visits every key of `keys` once. */
  ghost predicate Enumerates(order: seq<string>, keys: set<string>) {
    NoRepeats(order) && (forall k :: k in order <==> k in keys)
  }

  /**
   * The generator's thermostat pass: collect the cluster keys, then for each
   * key classify its members, read the name overrides and emit the climate
   * entry and rules. The result is the one for the visiting order
   * `visited`, which takes every key of the key set once; which order that
   * is, is not fixed.
   */
  method GetThermostats(devs: seq<Device>, names: string, toF: bool)
    returns (r: Result<ThermostatConfig, Error>, ghost visited: seq<string>)
    ensures Enumerates(visited, KeySet(devs)) && r == AssembleAll(devs, visited, names, toF)
  {
    var ids := ThermostatIds(devs);
    var keys := set k | k in ids;
    var remaining := keys;
    var automation: seq<Doc> := [];
    var climate: seq<Doc> := [];
    ghost var order: seq<string> := [];
    while remaining != {}
      invariant remaining <= keys == KeySet(devs)
      invariant NoRepeats(order)
      invariant forall k :: k in order <==> k in keys && k !in remaining
      invariant AssembleAll(devs, order, names, toF) == Ok(ThermostatConfig(automation, climate))
      decreases |remaining|
    {
      var key :| key in remaining;
      var out := VisitCluster(devs, key, names, toF);
      if out.Err? {
        r := Err(out.error);
        visited := order + [key] + Enumeration(remaining - {key});
        AbortOrder(devs, order, key, Enumeration(remaining - {key}), remaining, names, toF);
        return;
      }
      VisitOk(devs, order, key, remaining, names, toF, automation, climate);
      climate := climate + [out.value.0];
      automation := automation + out.value.1;
      order := order + [key];
      remaining := remaining - {key};
    }
    r := Ok(ThermostatConfig(automation, climate));
    visited := order;
  }

  /** A cluster that does not raise extends the result by its climate entry and rules. */
  lemma VisitOk(devs: seq<Device>, order: seq<string>, key: string, remaining: set<string>, names: string, toF: bool,
                automation: seq<Doc>, climate: seq<Doc>)
    requires key in remaining && remaining <= KeySet(devs)
    requires NoRepeats(order) && forall k :: k in order <==> k in KeySet(devs) && k !in remaining
    requires AssembleAll(devs, order, names, toF) == Ok(ThermostatConfig(automation, climate))
    requires ClusterOutput(devs, key, names, toF).Ok?
    ensures var out := ClusterOutput(devs, key, names, toF).value;
      AssembleAll(devs, order + [key], names, toF) == Ok(ThermostatConfig(automation + out.1, climate + [out.0]))
    ensures NoRepeats(order + [key]) && forall k :: k in order + [key] <==> k in KeySet(devs) && k !in remaining - {key}
    ensures |remaining - {key}| < |remaining|
  {
    var o := ClusterOutput(devs, key, names, toF);
    var outs := Outputs(devs, order, names, toF);
    OutputsAppend(devs, order, [key], names, toF);
    assert Outputs(devs, order + [key], names, toF) == outs + [o];
    CollectSnoc(outs, o);
    VisitOrder(order, key, remaining, KeySet(devs));
  }

  lemma VisitOrder(order: seq<string>, key: string, remaining: set<string>, keys: set<string>)
    requires key in remaining && remaining <= keys
    requires NoRepeats(order) && forall k :: k in order <==> k in keys && k !in remaining
    ensures NoRepeats(order + [key]) && forall k :: k in order + [key] <==> k in keys && k !in remaining - {key}
    ensures |remaining - {key}| < |remaining|
  {
  }

  /** The loop collecting the cluster key of every Z-Wave thermostat, in device order. */
  method ThermostatIds(devs: seq<Device>) returns (ids: seq<string>)
    ensures ids == KeyList(devs)
  {
    ids := [];
    for i := 0 to |devs|
      invariant ids == KeyList(devs[..i])
    {
      assert devs[..i + 1][..i] == devs[..i];
      var d := devs[i];
      if d.typ == "Thermostat" {
        var tid := LStrip(d.id, '0');
        if Contains(d.hardwareType, "ZWave") {
          tid := Take(tid, 2);
          ids := ids + [tid];
        }
      }
    }
    assert devs[..|devs|] == devs;
  }

  /**
   * One cluster's turn of the loop: classify its members, read the name
   * overrides, and build its climate entry and rules.
   */
  method VisitCluster(devs: seq<Device>, key: string, names: string, toF: bool) returns (out: Output)
    ensures out == ClusterOutput(devs, key, names, toF)
  {
    var members := Members(devs, key);
    var slots := ClassifyCluster(members);
    ClusterOutputCases(devs, key, names, toF);
    if slots.Err? {
      return Err(slots.error);
    }
    var table := ParseOverrides(names);
    if table.Err? {
      return Err(table.error);
    }
    var name := ClimateName(table.value, key);
    out := Ok((ClimateDoc(name, slots.value, toF), ClimateRules(slots.value, toF)));
  }

  /** A cluster's output in terms of its classification and the override table. */
  lemma ClusterOutputCases(devs: seq<Device>, key: string, names: string, toF: bool)
    ensures var ms := Members(devs, key);
      ClusterOutput(devs, key, names, toF)
      == if Classify(ms, |ms|).Err? then Err(Classify(ms, |ms|).error)
         else if OverridesOf(names).Err? then Err(OverridesOf(names).error)
         else
           var s, table := Classify(ms, |ms|).value, OverridesOf(names).value;
           Ok((ClimateDoc(ClimateName(table, key), s, toF), ClimateRules(s, toF)))
  {
  }

  lemma OutputsAppend(devs: seq<Device>, a: seq<string>, b: seq<string>, names: string, toF: bool)
    ensures Outputs(devs, a + b, names, toF) == Outputs(devs, a, names, toF) + Outputs(devs, b, names, toF)
    ensures |b| == 1 ==> Outputs(devs, b, names, toF) == [ClusterOutput(devs, b[0], names, toF)]
  {
    MapSeqAppend(OutputOf(devs, names, toF), a, b);
  }

  lemma MapSeqAppend<A, B>(f: A -> B, a: seq<A>, b: seq<A>)
    ensures MapSeq(f, a + b) == MapSeq(f, a) + MapSeq(f, b)
  {
  }

  lemma CollectSnoc(outs: seq<Output>, o: Output)
    ensures Collect(outs).Err? ==> Collect(outs + [o]) == Collect(outs)
    ensures Collect(outs).Ok? && o.Err? ==> Collect(outs + [o]) == Err(o.error)
    ensures Collect(outs).Ok? && o.Ok? ==>
      Collect(outs + [o]) == Ok(ThermostatConfig(Collect(outs).value.automation + o.value.1, Collect(outs).value.climate + [o.value.0]))
  {
    assert (outs + [o])[..|outs|] == outs;
  }

  /**
   * When the cluster `key` raises, the order that visits `order`, then
   * `key`, then the rest, gives that error.
   */
  lemma AbortOrder(devs: seq<Device>, order: seq<string>, key: string, rest: seq<string>, remaining: set<string>, names: string, toF: bool)
    requires key in remaining
    requires NoRepeats(order) && forall k :: k in order <==> k in KeySet(devs) && k !in remaining
    requires remaining <= KeySet(devs)
    requires NoRepeats(rest) && forall k :: k in rest <==> k in remaining - {key}
    requires AssembleAll(devs, order, names, toF).Ok? && ClusterOutput(devs, key, names, toF).Err?
    ensures Enumerates(order + [key] + rest, KeySet(devs))
    ensures AssembleAll(devs, order + [key] + rest, names, toF) == Err(ClusterOutput(devs, key, names, toF).error)
  {
    var prefix := order + [key];
    OutputsAppend(devs, order, [key], names, toF);
    OutputsAppend(devs, prefix, rest, names, toF);
    var o := ClusterOutput(devs, key, names, toF);
    AbortAt(Outputs(devs, order, names, toF), o, Outputs(devs, rest, names, toF));
    FullEnumeration(order, key, rest, remaining, KeySet(devs));
  }

  /** The first failing output decides the result, whatever follows it. */
  lemma AbortAt(before: seq<Output>, o: Output, after: seq<Output>)
    requires Collect(before).Ok? && o.Err?
    ensures Collect(before + [o] + after) == Err(o.error)
  {
    CollectSnoc(before, o);
    AbortSticks(before + [o], after);
  }

  lemma FullEnumeration(order: seq<string>, key: string, rest: seq<string>, remaining: set<string>, keys: set<string>)
    requires key in remaining && remaining <= keys
    requires NoRepeats(order) && forall k :: k in order <==> k in keys && k !in remaining
    requires NoRepeats(rest) && forall k :: k in rest <==> k in remaining - {key}
    ensures Enumerates(order + [key] + rest, keys)
  {
    var prefix := order + [key];
    var full := prefix + rest;
    forall i, j | 0 <= i < j < |full| ensures full[i] != full[j] {
      if j >= |prefix| {
        assert full[j] == rest[j - |prefix|] && full[j] in rest;
        if i >= |prefix| {
          assert full[i] == rest[i - |prefix|];
        } else if i < |order| {
          assert full[i] == order[i] && full[i] in order;
        } else {
          assert full[i] == key;
        }
      } else if j == |order| {
        assert full[i] == order[i] && full[i] in order;
      } else {
        assert full[i] == order[i] && full[j] == order[j];
      }
    }
    forall k ensures k in full <==> k in keys {
      assert k in full <==> k in order || k == key || k in rest;
    }
  }

  /** Some visiting order of a finite set. */
  ghost function Enumeration(s: set<string>): (r: seq<string>)
    ensures NoRepeats(r) && forall k :: k in r <==> k in s
    decreases |s|
  {
    if s == {} then []
    else
      var x :| x in s;
      var rest := Enumeration(s - {x});
      assert forall i :: 0 <= i < |rest| ==> rest[i] != x;
      [x] + rest
  }

  /** An error raised by a prefix of the outputs is the result. */
  lemma {:induction false} AbortSticks(prefix: seq<Output>, rest: seq<Output>)
    requires Collect(prefix).Err?
    ensures Collect(prefix + rest) == Collect(prefix)
    decreases |rest|
  {
    if rest != [] {
      var init, last := rest[..|rest| - 1], rest[|rest| - 1];
      assert rest == init + [last];
      AbortSticks(prefix, init);
      CollectSnoc(prefix + init, last);
      assert prefix + rest == (prefix + init) + [last];
    } else {
      assert prefix + rest == prefix;
    }
  }

  /** The pass succeeds exactly when every visited cluster does. */
  lemma {:induction false} CollectOk(outs: seq<Output>)
    ensures Collect(outs).Ok? <==> forall i :: 0 <= i < |outs| ==> outs[i].Ok?
  {
    if outs != [] {
      var init := outs[..|outs| - 1];
      CollectOk(init);
      assert forall i :: 0 <= i < |init| ==> init[i] == outs[i];
    }
  }

  function ClimateOfOutput(o: Output): Doc {
    if o.Ok? then o.value.0 else []
  }

  /** On success there is one climate entry per visited cluster, in visiting order. */
  lemma {:induction false} CollectClimates(outs: seq<Output>)
    requires Collect(outs).Ok?
    ensures Collect(outs).value.climate == MapSeq(ClimateOfOutput, outs)
  {
    if outs != [] {
      var init := outs[..|outs| - 1];
      CollectClimates(init);
      assert MapSeq(ClimateOfOutput, outs) == MapSeq(ClimateOfOutput, init) + [ClimateOfOutput(outs[|outs| - 1])];
    }
  }

  function RulesOfOutput(o: Output): seq<Doc> {
    if o.Ok? then o.value.1 else []
  }

  /** The rule lists of the clusters, one after the other. */
  function Concat(parts: seq<seq<Doc>>): seq<Doc> {
    if parts == [] then [] else Concat(parts[..|parts| - 1]) + parts[|parts| - 1]
  }

  lemma {:induction false} ConcatAppend(a: seq<seq<Doc>>, b: seq<seq<Doc>>)
    ensures Concat(a + b) == Concat(a) + Concat(b)
    decreases |b|
  {
    if b == [] {
      assert a + b == a;
    } else {
      var init := b[..|b| - 1];
      assert (a + b)[..|a + b| - 1] == a + init;
      ConcatAppend(a, init);
    }
  }

  /** On success the rules are every visited cluster's rules, in visiting order. */
  lemma {:induction false} CollectRules(outs: seq<Output>)
    requires Collect(outs).Ok?
    ensures Collect(outs).value.automation == Concat(MapSeq(RulesOfOutput, outs))
  {
    if outs != [] {
      var init := outs[..|outs| - 1];
      CollectRules(init);
      assert MapSeq(RulesOfOutput, outs)[..|outs| - 1] == MapSeq(RulesOfOutput, init);
    }
  }

  /** Concatenating permuted rule lists gives a permutation of the rules. */
  lemma {:induction false} PermutedConcat(a: seq<seq<Doc>>, b: seq<seq<Doc>>)
    requires multiset(a) == multiset(b)
    ensures multiset(Concat(a)) == multiset(Concat(b))
    decreases |a|
  {
    if a == [] {
      assert |b| == |multiset(b)| == 0;
    } else {
      var x := a[|a| - 1];
      var init := a[..|a| - 1];
      assert a == init + [x];
      assert x in multiset(b);
      var j :| 0 <= j < |b| && b[j] == x;
      var p, q := b[..j], b[j + 1..];
      assert b == p + [x] + q;
      RemoveOne(init, x, p, q);
      PermutedConcat(init, p + q);
      ConcatAppend(p, q);
      ConcatAppend(p + [x], q);
      ConcatAppend(p, [x]);
      assert [x][..0] == [];
      assert Concat([x]) == x;
    }
  }

  /**
   * The visiting order does not matter for whether the pass succeeds, nor
   * for which climate entries and which rules it writes and how often.
   */
  lemma OrderIndependent(devs: seq<Device>, o1: seq<string>, o2: seq<string>, names: string, toF: bool)
    requires Enumerates(o1, KeySet(devs)) && Enumerates(o2, KeySet(devs))
    ensures AssembleAll(devs, o1, names, toF).Ok? <==> AssembleAll(devs, o2, names, toF).Ok?
    ensures AssembleAll(devs, o1, names, toF).Ok? ==>
      multiset(AssembleAll(devs, o1, names, toF).value.climate) == multiset(AssembleAll(devs, o2, names, toF).value.climate)
    ensures AssembleAll(devs, o1, names, toF).Ok? ==>
      multiset(AssembleAll(devs, o1, names, toF).value.automation) == multiset(AssembleAll(devs, o2, names, toF).value.automation)
  {
    var f := OutputOf(devs, names, toF);
    var outs1, outs2 := MapSeq(f, o1), MapSeq(f, o2);
    SamePermutation(o1, o2);
    PermutedMap(f, o1, o2);
    CollectOk(outs1);
    CollectOk(outs2);
    PermutedAllOk(outs1, outs2);
    if Collect(outs1).Ok? {
      CollectClimates(outs1);
      CollectClimates(outs2);
      PermutedMap(ClimateOfOutput, outs1, outs2);
      CollectRules(outs1);
      CollectRules(outs2);
      PermutedMap(RulesOfOutput, outs1, outs2);
      PermutedConcat(MapSeq(RulesOfOutput, outs1), MapSeq(RulesOfOutput, outs2));
    }
  }

  /**
   * Which error is raised does depend on the order: of two failing
   * clusters, the one visited first decides.
   */
  lemma FirstErrorWins(e1: Error, e2: Error)
    ensures Collect([Err(e1), Err(e2)]) == Err(e1)
    ensures Collect([Err(e2), Err(e1)]) == Err(e2)
  {
    AbortAt([], Err(e1), [Err(e2)]);
    AbortAt([], Err(e2), [Err(e1)]);
  }

  lemma PermutedAllOk(a: seq<Output>, b: seq<Output>)
    requires multiset(a) == multiset(b)
    ensures (forall i :: 0 <= i < |a| ==> a[i].Ok?) <==> (forall i :: 0 <= i < |b| ==> b[i].Ok?)
  {
    forall i | 0 <= i < |a| ensures a[i] in b {
      assert a[i] in multiset(a);
    }
    forall i | 0 <= i < |b| ensures b[i] in a {
      assert b[i] in multiset(b);
    }
  }

  function MapSeq<A, B>(f: A -> B, s: seq<A>): (r: seq<B>)
    ensures |r| == |s| && forall i :: 0 <= i < |s| ==> r[i] == f(s[i])
  {
    seq(|s|, i requires 0 <= i < |s| => f(s[i]))
  }

  lemma {:induction false} DistinctCount(a: seq<string>, x: string)
    requires NoRepeats(a)
    ensures multiset(a)[x] == if x in a then 1 else 0
  {
    if a != [] {
      var init := a[..|a| - 1];
      assert a == init + [a[|a| - 1]];
      DistinctCount(init, x);
      assert a[|a| - 1] !in init;
    }
  }

  /** Two orders without repeats over the same keys are permutations of each other. */
  lemma SamePermutation(a: seq<string>, b: seq<string>)
    requires NoRepeats(a) && NoRepeats(b) && forall k :: k in a <==> k in b
    ensures multiset(a) == multiset(b)
  {
    forall x ensures multiset(a)[x] == multiset(b)[x] {
      DistinctCount(a, x);
      DistinctCount(b, x);
    }
  }

  /** Mapping a function over two permutations of each other gives permutations of each other. */
  lemma {:induction false} PermutedMap<A, B>(f: A -> B, a: seq<A>, b: seq<A>)
    requires multiset(a) == multiset(b)
    ensures multiset(MapSeq(f, a)) == multiset(MapSeq(f, b))
    decreases |a|
  {
    if a != [] {
      var x := a[|a| - 1];
      var init := a[..|a| - 1];
      assert a == init + [x];
      assert x in multiset(b);
      var j :| 0 <= j < |b| && b[j] == x;
      var p, q := b[..j], b[j + 1..];
      assert b == p + [x] + q;
      RemoveOne(init, x, p, q);
      PermutedMap(f, init, p + q);
      MapSnoc(f, init, x);
      MapMiddle(f, p, x, q);
    }
  }

  lemma RemoveOne<A>(init: seq<A>, x: A, p: seq<A>, q: seq<A>)
    requires multiset(init + [x]) == multiset(p + [x] + q)
    ensures multiset(init) == multiset(p + q)
  {
    assert multiset(init + [x]) == multiset(init) + multiset{x};
    assert multiset(p + [x] + q) == multiset(p + q) + multiset{x};
    forall y ensures multiset(init)[y] == multiset(p + q)[y] {
      assert (multiset(init) + multiset{x})[y] == (multiset(p + q) + multiset{x})[y];
    }
  }

  lemma MapSnoc<A, B>(f: A -> B, s: seq<A>, x: A)
    ensures multiset(MapSeq(f, s + [x])) == multiset(MapSeq(f, s)) + multiset{f(x)}
  {
    assert MapSeq(f, s + [x]) == MapSeq(f, s) + [f(x)];
  }

  lemma MapMiddle<A, B>(f: A -> B, p: seq<A>, x: A, q: seq<A>)
    ensures multiset(MapSeq(f, p + [x] + q)) == multiset(MapSeq(f, p + q)) + multiset{f(x)}
  {
    assert MapSeq(f, p + [x] + q) == MapSeq(f, p) + [f(x)] + MapSeq(f, q);
    assert MapSeq(f, p + q) == MapSeq(f, p) + MapSeq(f, q);
  }
}
