/**
 * Which group lists each sensor. The groups file should show every
 * candidate sensor (temperature-class, motion and door) once: either in
 * the catch-all `sensors` group or as a member of one explicit group.
 * That holds when the explicit groups do not share members, their keys
 * stay distinct once converted, and no candidate doubles as a display
 * name. The group keys come from two builders that convert names
 * differently, so two of them can collide; a member of the earlier group
 * then ends up in no group at all.
 */
module GroupCoverage {
  import opened Wrappers
  import opened Strings
  import opened Docs
  import opened Builders
  import opened Accumulators
  import Dict

  ghost predicate DistinctNames(names: seq<string>) {
    forall i, j :: 0 <= i < j < |names| ==> names[i] != names[j]
  }

  /** No two group keys convert to the same entity id. */
  ghost predicate DistinctGroupKeys(g: Dict.Dict<string, seq<string>>) {
    forall i, j :: 0 <= i < j < |g| ==> ConvertName(g[i].0) != ConvertName(g[j].0)
  }

  /** No name is listed by two groups. */
  ghost predicate DisjointMembers(g: Dict.Dict<string, seq<string>>) {
    forall i, j, x :: 0 <= i < |g| && 0 <= j < |g| && i != j && x in g[i].1 ==> x !in g[j].1
  }

  /** A name some group lists is among the group members the catch-all group subtracts. */
  lemma {:induction false} FlattenMember(g: Dict.Dict<string, seq<string>>, x: string)
    ensures x in Flatten(g) <==> exists i :: 0 <= i < |g| && x in g[i].1
  {
    if g != [] {
      var init := g[..|g| - 1];
      FlattenMember(init, x);
      assert Flatten(g) == Flatten(init) + g[|g| - 1].1;
      if x in Flatten(init) {
        var i :| 0 <= i < |init| && x in init[i].1;
        assert g[i] == init[i];
      }
      if exists i :: 0 <= i < |g| && x in g[i].1 {
        var i :| 0 <= i < |g| && x in g[i].1;
        if i < |init| {
          assert g[i] == init[i];
        }
      }
    }
  }

  /** A name listed once occurs once in the multiset of the list. */
  lemma {:induction false} DistinctOnce(names: seq<string>, x: string)
    requires DistinctNames(names) && x in names
    ensures multiset(names)[x] == 1
  {
    var init, last := names[..|names| - 1], names[|names| - 1];
    assert names == init + [last];
    assert DistinctNames(init);
    if x == last {
      forall k | 0 <= k < |init|
        ensures init[k] != x
      {
        assert names[k] != names[|names| - 1];
      }
    } else {
      DistinctOnce(init, x);
    }
  }

  /** With distinct converted keys, every group keeps its own entry in the explicit-groups document. */
  lemma {:induction false} GroupSurvives(g: Dict.Dict<string, seq<string>>, i: nat)
    requires GroupsNamed(g) && DistinctGroupKeys(g) && i < |g|
    ensures Dict.Get(GroupedSensorsDoc(g), ConvertName(g[i].0)) == Some(GroupEntry(g[i].1))
  {
    var init, last := g[..|g| - 1], g[|g| - 1];
    assert GroupsNamed(init);
    Dict.PutGet(GroupedSensorsDoc(init), ConvertName(last.0), GroupEntry(last.1), ConvertName(g[i].0));
    if i < |init| {
      assert init[i] == g[i];
      assert DistinctGroupKeys(init);
      GroupSurvives(init, i);
    }
  }

  /**
   * Under those three conditions every candidate sensor is shown once: it
   * stays in the catch-all group exactly when no group lists it, and
   * otherwise exactly one group lists it as a member, and that group's
   * entry is in the explicit-groups document.
   */
  lemma EachCandidateOnce(s: Lists, x: string)
    requires GroupsNamed(s.grouped)
    requires DistinctGroupKeys(s.grouped) && DisjointMembers(s.grouped) && DistinctNames(Candidates(s))
    requires forall i :: 0 <= i < |s.grouped| ==> s.grouped[i].1[0] !in Candidates(s)
    requires x in Candidates(s)
    ensures x in Ungrouped(s) <==> forall i :: 0 <= i < |s.grouped| ==> x !in s.grouped[i].1
    ensures multiset(Ungrouped(s))[x] <= 1
    ensures x !in Ungrouped(s) ==>
      exists i :: 0 <= i < |s.grouped|
        && x in s.grouped[i].1[1..]
        && Dict.Get(GroupedSensorsDoc(s.grouped), ConvertName(s.grouped[i].0)) == Some(GroupEntry(s.grouped[i].1))
        && forall j :: 0 <= j < |s.grouped| && j != i ==> x !in s.grouped[j].1
  {
    var g := s.grouped;
    DistinctOnce(Candidates(s), x);
    UngroupedCount(s, x);
    FlattenMember(g, x);
    if x !in Ungrouped(s) {
      var i :| 0 <= i < |g| && x in g[i].1;
      var k :| 0 <= k < |g[i].1| && g[i].1[k] == x;
      assert k != 0;
      assert g[i].1[1..][k - 1] == x;
      GroupSurvives(g, i);
    }
  }

  /**
   * The collision, concretely: a `Temp + Humidity` device named `a'` is
   * grouped under `a'`, a kWh device named `a` under `a`. Both keys convert
   * to `a`, so the power group replaces the humidity group in the
   * explicit-groups document, while the humidity device's two sensors have
   * already been subtracted from the catch-all group: they are shown in no
   * group, and the catch-all group lists `group.a` twice.
   */
  lemma CollidingGroupKeys(hum: Device, kwh: Device, toF: bool)
    requires hum.name == "a'" && hum.typ == "Temp + Humidity" && kwh.name == "a"
    ensures var s := PowerStep(TempStep(NoLists, hum, toF), kwh);
      && Candidates(s) == [hum.name + "_temperature", hum.name + "_humidity"]
      && Ungrouped(s) == []
      && GroupsNamed(s.grouped)
      && Dict.Keys(GroupedSensorsDoc(s.grouped)) == ["a"]
      && Dict.Get(GroupedSensorsDoc(s.grouped), "a") == Some(GroupEntry([kwh.name, kwh.name + "_kwh", kwh.name + "_watts"]))
      && Prefixed("group.", Dict.Keys(s.grouped)) == Prefixed("group.", ["a", "a"])
  {
    var n := hum.name;
    var members := HumidityMembers(hum);
    var power := [kwh.name, kwh.name + "_kwh", kwh.name + "_watts"];
    var s := CollidingState(hum, kwh, toF);
    assert Flatten(s.grouped) == members + power by {
      assert s.grouped[..1] == [(n, members)] && s.grouped[..1][..0] == [];
      assert Flatten(s.grouped[..1]) == Flatten([]) + members;
    }
    UngroupedEmpty(n, power);
    ConvertApostrophe();
    ConvertNamePlain("a");
    CollidingDoc(n, members, power);
    assert Dict.Keys(s.grouped) == [n, "a"];
  }

  /** Two groups whose keys both convert to `a`: only the later one is in the document. */
  lemma CollidingDoc(n: string, members: seq<string>, power: seq<string>)
    requires ConvertName(n) == "a" && ConvertName("a") == "a" && |members| >= 1 && |power| >= 1
    ensures GroupsNamed([(n, members), ("a", power)])
    ensures GroupedSensorsDoc([(n, members), ("a", power)]) == [("a", GroupEntry(power))]
  {
    var g := [(n, members), ("a", power)];
    assert g[..1] == [(n, members)] && g[..1][..0] == [];
    assert GroupedSensorsDoc(g[..1]) == [("a", GroupEntry(members))];
  }

  /** The two steps record the humidity device's two sensors and its group, then the power group. */
  lemma CollidingState(hum: Device, kwh: Device, toF: bool) returns (s: Lists)
    requires hum.name == "a'" && hum.typ == "Temp + Humidity" && kwh.name == "a"
    ensures s == PowerStep(TempStep(NoLists, hum, toF), kwh)
    ensures Candidates(s) == [hum.name + "_temperature", hum.name + "_humidity"]
    ensures s.grouped == [(hum.name, HumidityMembers(hum)), ("a", [kwh.name, kwh.name + "_kwh", kwh.name + "_watts"])]
  {
    var n := hum.name;
    var members := HumidityMembers(hum);
    var power := [kwh.name, kwh.name + "_kwh", kwh.name + "_watts"];
    TypeMentions(hum.typ);
    assert TempKey(hum) == n;
    var t := TempStep(NoLists, hum, toF);
    TempStepParts(NoLists, hum, toF);
    TempStepGroups(NoLists, hum, toF);
    assert t.temp == [n + "_temperature", n + "_humidity"];
    assert t.grouped == [(n, members)];
    ConvertNamePlain(kwh.name);
    assert ConvertName(kwh.name) == "a";
    assert n != "a" by { assert |n| != |kwh.name|; }
    s := PowerStep(t, kwh);
    assert [(n, members)][1..] == [];
    assert s.grouped == [(n, members)] + Dict.Put([], "a", power);
  }

  lemma ConvertApostrophe()
    ensures ConvertName("a'") == "a"
  {
    var n := "a'";
    assert Lower(n) == n;
    assert ReplaceChar(n, ' ', '_') == n;
    assert RemoveChar(n, '\'') == ['a'] + RemoveChar(n[1..], '\'');
    assert RemoveChar(n[1..], '\'') == RemoveChar([], '\'');
  }

  /** The humidity device's members remove both of its sensors, and the power members remove nothing more. */
  lemma UngroupedEmpty(n: string, power: seq<string>)
    ensures RemoveEach([n + "_temperature", n + "_humidity"],
                       [n, n + "_humidity", n + "_temperature"] + power) == []
  {
    var c := [n + "_temperature", n + "_humidity"];
    var xs := [n, n + "_humidity", n + "_temperature"];
    var temp, hum := n + "_temperature", n + "_humidity";
    assert |temp| != |n| && |hum| != |n| && |temp| != |hum|;
    assert xs[..1][..0] == [] && xs[..2][..1] == xs[..1] && xs[..2] == xs[..|xs| - 1];
    assert RemoveFirst([hum], n) == [hum] + RemoveFirst([], n);
    assert RemoveFirst(c, n) == [temp] + RemoveFirst([hum], n);
    assert RemoveEach(c, xs[..1]) == RemoveFirst(c, n);
    assert c[1..] == [hum] && [hum][1..] == [];
    assert RemoveFirst(c, hum) == [temp] + RemoveFirst([hum], hum);
    assert RemoveEach(c, xs[..2]) == RemoveFirst(RemoveEach(c, xs[..1]), hum);
    assert RemoveEach(c, xs[..2]) == [temp];
    assert RemoveEach(c, xs) == RemoveFirst([temp], temp);
    RemoveEachEmpty(c, xs, power);
  }

  /** Once every candidate is removed, further removals find nothing. */
  lemma {:induction false} RemoveEachEmpty(l: seq<string>, xs: seq<string>, ys: seq<string>)
    requires RemoveEach(l, xs) == []
    ensures RemoveEach(l, xs + ys) == []
  {
    if ys != [] {
      var init := ys[..|ys| - 1];
      assert (xs + ys)[..|xs + ys| - 1] == xs + init;
      RemoveEachEmpty(l, xs, init);
    } else {
      assert xs + ys == xs;
    }
  }
}
