/**
 * Parsing a thermostat control's `Modes` string (`"0;Off;1;Heat;..."`) into
 * the two lookup tables the climate rules embed: label to numeric code
 * (`t_modes`, `f_modes`) and code to label (`t_modes_rev`, `f_modes_rev`).
 */
module ModeMaps {
  import opened Wrappers
  import opened Strings
  import opened Docs
  import Dict

  /** The only labels kept for a thermostat-mode control. */
  const ThermostatModeLabels := ["auto", "off", "cool", "heat", "dry", "fan_only"]

  /** label -> numeric code, and code (as written) -> label; both insertion-ordered. */
  datatype ModeMap = ModeMap(codeOf: Dict.Dict<string, nat>, labelOf: Dict.Dict<string, string>)

  const EmptyModeMap := ModeMap([], [])

  /** The lower-cased `Modes` string split on `;`. */
  function Tokens(modes: string): seq<string> {
    Split(Lower(modes), ';')
  }

  /** A thermostat-mode control keeps only vocabulary labels; a fan control keeps every label. */
  predicate Kept(raw: string, vocabOnly: bool) {
    !vocabOnly || raw in ThermostatModeLabels
  }

  /** The stored label: thermostat-mode labels have spaces turned into underscores. */
  function StoredLabel(raw: string, vocabOnly: bool): string {
    if vocabOnly then ReplaceChar(raw, ' ', '_') else raw
  }

  /** No vocabulary label has a space, so normalising a kept thermostat label changes nothing. */
  lemma StoredLabelOfVocabulary(raw: string)
    requires raw in ThermostatModeLabels
    ensures StoredLabel(raw, true) == raw
  {
  }

  /** One code/label pair entered into both tables, or dropped as a whole. */
  function Step(mm: ModeMap, code: string, raw: string, vocabOnly: bool): Result<ModeMap, Error> {
    if !Kept(raw, vocabOnly) then Ok(mm)
    else
      var stored := StoredLabel(raw, vocabOnly);
      match ParseNat(code)
      case None => Err(BadModeCode(code))
      case Some(n) => Ok(ModeMap(Dict.Put(mm.codeOf, stored, n), Dict.Put(mm.labelOf, code, stored)))
  }

  /** The tables after the first `k` complete pairs of `m`. */
  function PairsFold(m: seq<string>, k: nat, vocabOnly: bool): Result<ModeMap, Error>
    requires 2 * k <= |m|
  {
    if k == 0 then Ok(EmptyModeMap)
    else
      match PairsFold(m, k - 1, vocabOnly)
      case Err(e) => Err(e)
      case Ok(mm) => Step(mm, m[2 * k - 2], m[2 * k - 1], vocabOnly)
  }

  /** The tables of a `Modes` string: every complete pair, a trailing odd token ignored. */
  function ModeMapOf(modes: string, vocabOnly: bool): Result<ModeMap, Error> {
    var m := Tokens(modes);
    PairsFold(m, |m| / 2, vocabOnly)
  }

  /**
   * The loop of GetThermostats that walks the tokens two at a time, for a
   * thermostat-mode control (`vocabOnly`) or a fan-mode control.
   */
  method ParseModes(modes: string, vocabOnly: bool) returns (r: Result<ModeMap, Error>)
    ensures r == ModeMapOf(modes, vocabOnly)
  {
    var m := Split(Lower(modes), ';');
    var mm := EmptyModeMap;
    var i := 0;
    ghost var k: nat := 0;
    while i < |m|
      invariant i == 2 * k && i <= |m|
      invariant PairsFold(m, k, vocabOnly) == Ok(mm)
    {
      if i + 1 == |m| {
        break;
      }
      FoldNext(m, k, vocabOnly, mm);
      var next := ModePair(mm, m[i], m[i + 1], vocabOnly);
      if next.Err? {
        r := next;
        HalfBound(|m|, k + 1);
        FoldErrorSticks(m, k + 1, |m| / 2, vocabOnly);
        return;
      }
      mm := next.value;
      i, k := i + 2, k + 1;
    }
    HalfOf(|m|, k);
    return Ok(mm);
  }

  lemma HalfBound(n: nat, k: nat)
    requires 2 * k <= n
    ensures k <= n / 2
  {
  }

  lemma HalfOf(n: nat, k: nat)
    requires 2 * k == n || 2 * k + 1 == n
    ensures n / 2 == k
  {
  }

  lemma FoldNext(m: seq<string>, k: nat, vocabOnly: bool, mm: ModeMap)
    requires 2 * k + 2 <= |m| && PairsFold(m, k, vocabOnly) == Ok(mm)
    ensures PairsFold(m, k + 1, vocabOnly) == Step(mm, m[2 * k], m[2 * k + 1], vocabOnly)
  {
  }

  /**
   * The body of the pair loop: a dropped label skips the pair; otherwise the
   * label table is written before the code is parsed, so a bad code raises.
   */
  method ModePair(mm: ModeMap, code: string, raw: string, vocabOnly: bool) returns (r: Result<ModeMap, Error>)
    ensures r == Step(mm, code, raw, vocabOnly)
  {
    if vocabOnly && raw !in ThermostatModeLabels {
      return Ok(mm);
    }
    var stored := if vocabOnly then ReplaceChar(raw, ' ', '_') else raw;
    var labelOf := Dict.Put(mm.labelOf, code, stored);
    var n := ParseNat(code);
    if n.None? {
      return Err(BadModeCode(code));
    }
    var codeOf := Dict.Put(mm.codeOf, stored, n.value);
    r := Ok(ModeMap(codeOf, labelOf));
  }

  /** Once a pair has raised, the rest of the string is never read. */
  lemma {:induction false} FoldErrorSticks(m: seq<string>, k: nat, k': nat, vocabOnly: bool)
    requires k <= k' && 2 * k' <= |m|
    requires PairsFold(m, k, vocabOnly).Err?
    ensures PairsFold(m, k', vocabOnly) == PairsFold(m, k, vocabOnly)
    decreases k' - k
  {
    if k < k' {
      FoldErrorSticks(m, k, k' - 1, vocabOnly);
    }
  }

  /** The (code, stored label) pairs among the first `k` pairs that are not dropped, in order. */
  function KeptPairs(m: seq<string>, k: nat, vocabOnly: bool): (kept: seq<(string, string)>)
    requires 2 * k <= |m|
    ensures |kept| <= k
  {
    if k == 0 then []
    else
      var rest := KeptPairs(m, k - 1, vocabOnly);
      if Kept(m[2 * k - 1], vocabOnly) then rest + [(m[2 * k - 2], StoredLabel(m[2 * k - 1], vocabOnly))]
      else rest
  }

  function Codes(kept: seq<(string, string)>): (r: seq<string>)
    ensures |r| == |kept| && forall j :: 0 <= j < |kept| ==> r[j] == kept[j].0
  {
    seq(|kept|, j requires 0 <= j < |kept| => kept[j].0)
  }

  function Labels(kept: seq<(string, string)>): (r: seq<string>)
    ensures |r| == |kept| && forall j :: 0 <= j < |kept| ==> r[j] == kept[j].1
  {
    seq(|kept|, j requires 0 <= j < |kept| => kept[j].1)
  }

  ghost predicate Distinct(s: seq<string>) {
    forall i, j :: 0 <= i < j < |s| ==> s[i] != s[j]
  }

  /** The distinct elements of `s` in order of first occurrence. */
  function Dedup(s: seq<string>): (r: seq<string>)
    ensures Distinct(r)
    ensures forall x :: x in r <==> x in s
    ensures |r| <= |s|
  {
    if s == [] then []
    else
      var d := Dedup(s[..|s| - 1]);
      assert forall x :: x in s <==> x in s[..|s| - 1] || x == s[|s| - 1];
      if s[|s| - 1] in d then d else d + [s[|s| - 1]]
  }

  lemma {:induction false} DedupDistinct(s: seq<string>)
    requires Distinct(s)
    ensures Dedup(s) == s
  {
    if s != [] {
      DedupDistinct(s[..|s| - 1]);
      assert s[|s| - 1] !in s[..|s| - 1];
      assert s == s[..|s| - 1] + [s[|s| - 1]];
    }
  }

  /** The label of the last kept pair with code `c` (the last write into `t_modes_rev[c]`). */
  function LastLabel(kept: seq<(string, string)>, c: string): Option<string> {
    if kept == [] then None
    else if kept[|kept| - 1].0 == c then Some(kept[|kept| - 1].1)
    else LastLabel(kept[..|kept| - 1], c)
  }

  /** The code of the last kept pair with label `l` (the last write into `t_modes[l]`). */
  function LastCode(kept: seq<(string, string)>, l: string): Option<string> {
    if kept == [] then None
    else if kept[|kept| - 1].1 == l then Some(kept[|kept| - 1].0)
    else LastCode(kept[..|kept| - 1], l)
  }

  function ParsedCode(c: Option<string>): Option<nat> {
    match c case None => None case Some(s) => ParseNat(s)
  }

  /** Every kept pair's code is a numeral `int()` accepts. */
  predicate CodesParse(kept: seq<(string, string)>) {
    forall j :: 0 <= j < |kept| ==> ParseNat(kept[j].0).Some?
  }

  /** The parse raises exactly when some kept pair has a code `int()` rejects. */
  lemma {:induction false} ModeMapFails(m: seq<string>, k: nat, vocabOnly: bool)
    requires 2 * k <= |m|
    ensures PairsFold(m, k, vocabOnly).Ok? <==> CodesParse(KeptPairs(m, k, vocabOnly))
  {
    if k > 0 {
      ModeMapFails(m, k - 1, vocabOnly);
      var kept := KeptPairs(m, k, vocabOnly);
      var rest := KeptPairs(m, k - 1, vocabOnly);
      var code, raw := m[2 * k - 2], m[2 * k - 1];
      if !Kept(raw, vocabOnly) {
        assert kept == rest;
        assert PairsFold(m, k, vocabOnly) == PairsFold(m, k - 1, vocabOnly);
      } else {
        assert kept == rest + [(code, StoredLabel(raw, vocabOnly))];
        if PairsFold(m, k, vocabOnly).Ok? {
          assert PairsFold(m, k - 1, vocabOnly).Ok? && ParseNat(code).Some?;
          forall j | 0 <= j < |kept| ensures ParseNat(kept[j].0).Some? {
            if j < |rest| {
              assert kept[j] == rest[j];
            }
          }
        } else if PairsFold(m, k - 1, vocabOnly).Err? {
          var j :| 0 <= j < |rest| && ParseNat(rest[j].0).None?;
          assert kept[j] == rest[j];
        } else {
          assert ParseNat(code).None?;
          assert kept[|rest|].0 == code;
        }
      }
    }
  }

  /**
   * What the two tables hold: their keys are the kept labels and codes in
   * order of first occurrence, and each key holds the value of the last
   * kept pair that carries it.
   */
  lemma {:induction false} ModeMapTables(m: seq<string>, k: nat, vocabOnly: bool)
    requires 2 * k <= |m|
    requires PairsFold(m, k, vocabOnly).Ok?
    ensures TablesMatch(PairsFold(m, k, vocabOnly).value, KeptPairs(m, k, vocabOnly))
  {
    if k > 0 {
      ModeMapTables(m, k - 1, vocabOnly);
      var mm := PairsFold(m, k - 1, vocabOnly).value;
      var code, raw := m[2 * k - 2], m[2 * k - 1];
      if Kept(raw, vocabOnly) {
        StepTables(mm, KeptPairs(m, k - 1, vocabOnly), code, StoredLabel(raw, vocabOnly), ParseNat(code).value);
      }
    }
  }

  /**
   * `mm` holds the kept pairs `kept`: keys in order of first occurrence,
   * each holding the value of the last pair that carries it.
   */
  ghost predicate TablesMatch(mm: ModeMap, kept: seq<(string, string)>) {
    && Dict.Keys(mm.codeOf) == Dedup(Labels(kept))
    && Dict.Keys(mm.labelOf) == Dedup(Codes(kept))
    && (forall c :: Dict.Get(mm.labelOf, c) == LastLabel(kept, c))
    && (forall l :: Dict.Get(mm.codeOf, l) == ParsedCode(LastCode(kept, l)))
  }

  lemma StepTables(mm: ModeMap, kept: seq<(string, string)>, code: string, stored: string, n: nat)
    requires TablesMatch(mm, kept) && ParseNat(code) == Some(n)
    ensures TablesMatch(ModeMap(Dict.Put(mm.codeOf, stored, n), Dict.Put(mm.labelOf, code, stored)), kept + [(code, stored)])
  {
    var kept' := kept + [(code, stored)];
    assert kept'[..|kept|] == kept;
    assert Labels(kept') == Labels(kept) + [stored];
    assert Codes(kept') == Codes(kept) + [code];
    DedupSnoc(Labels(kept), stored);
    DedupSnoc(Codes(kept), code);
    Dict.PutKeys(mm.codeOf, stored, n);
    Dict.PutKeys(mm.labelOf, code, stored);
    forall c ensures Dict.Get(Dict.Put(mm.labelOf, code, stored), c) == LastLabel(kept', c) {
      Dict.PutGet(mm.labelOf, code, stored, c);
    }
    forall l ensures Dict.Get(Dict.Put(mm.codeOf, stored, n), l) == ParsedCode(LastCode(kept', l)) {
      Dict.PutGet(mm.codeOf, stored, n, l);
    }
  }

  lemma DedupSnoc(s: seq<string>, x: string)
    ensures Dedup(s + [x]) == if x in Dedup(s) then Dedup(s) else Dedup(s) + [x]
  {
    assert (s + [x])[..|s|] == s;
  }

  lemma {:induction false} LastLabelIsKept(kept: seq<(string, string)>, c: string) returns (j: nat)
    requires LastLabel(kept, c).Some?
    ensures j < |kept| && kept[j] == (c, LastLabel(kept, c).value)
  {
    if kept[|kept| - 1].0 == c {
      j := |kept| - 1;
    } else {
      j := LastLabelIsKept(kept[..|kept| - 1], c);
    }
  }

  lemma {:induction false} LastCodeOfUniqueLabel(kept: seq<(string, string)>, j: nat)
    requires j < |kept| && Distinct(Labels(kept))
    ensures LastCode(kept, kept[j].1) == Some(kept[j].0)
  {
    var n := |kept| - 1;
    if j < n {
      assert Labels(kept)[j] != Labels(kept)[n];
      assert Labels(kept[..n]) == Labels(kept)[..n];
      LastCodeOfUniqueLabel(kept[..n], j);
    }
  }

  lemma {:induction false} LastLabelOfUniqueCode(kept: seq<(string, string)>, j: nat)
    requires j < |kept| && Distinct(Codes(kept))
    ensures LastLabel(kept, kept[j].0) == Some(kept[j].1)
  {
    var n := |kept| - 1;
    if j < n {
      assert Codes(kept)[j] != Codes(kept)[n];
      assert Codes(kept[..n]) == Codes(kept)[..n];
      LastLabelOfUniqueCode(kept[..n], j);
    }
  }

  /**
   * Round trip code -> label -> code: when no label is kept twice, looking a
   * code's label up in the label table gives back the code's value.
   */
  lemma ModeMapRoundTrip(modes: string, vocabOnly: bool)
    requires ModeMapOf(modes, vocabOnly).Ok?
    requires Distinct(Labels(KeptPairs(Tokens(modes), |Tokens(modes)| / 2, vocabOnly)))
    ensures var mm := ModeMapOf(modes, vocabOnly).value;
      forall c :: c in Dict.Keys(mm.labelOf) ==>
        Dict.Get(mm.labelOf, c).Some? && Dict.Get(mm.codeOf, Dict.Get(mm.labelOf, c).value) == ParseNat(c)
  {
    var m := Tokens(modes);
    var k := |m| / 2;
    var mm, kept := ModeMapOf(modes, vocabOnly).value, KeptPairs(m, k, vocabOnly);
    ModeMapTables(m, k, vocabOnly);
    forall c | c in Dict.Keys(mm.labelOf)
      ensures Dict.Get(mm.labelOf, c).Some? && Dict.Get(mm.codeOf, Dict.Get(mm.labelOf, c).value) == ParseNat(c)
    {
      assert c in Codes(kept);
      var i :| 0 <= i < |kept| && Codes(kept)[i] == c;
      assert LastLabel(kept, c).Some? by {
        if LastLabel(kept, c).None? {
          LastLabelNone(kept, c, i);
        }
      }
      var j := LastLabelIsKept(kept, c);
      LastCodeOfUniqueLabel(kept, j);
    }
  }

  /** Every code in the code-to-label table is one `int()` accepts. */
  lemma TableCodesParse(modes: string, vocabOnly: bool, c: string)
    requires ModeMapOf(modes, vocabOnly).Ok?
    requires c in Dict.Keys(ModeMapOf(modes, vocabOnly).value.labelOf)
    ensures ParseNat(c).Some?
  {
    var m := Tokens(modes);
    var k := |m| / 2;
    var kept := KeptPairs(m, k, vocabOnly);
    ModeMapTables(m, k, vocabOnly);
    assert c in Codes(kept);
    var i :| 0 <= i < |kept| && Codes(kept)[i] == c;
    KeptCodeParses(m, k, vocabOnly, i);
  }

  lemma KeptCodeParses(m: seq<string>, k: nat, vocabOnly: bool, i: nat)
    requires 2 * k <= |m| && PairsFold(m, k, vocabOnly).Ok? && i < |KeptPairs(m, k, vocabOnly)|
    ensures ParseNat(KeptPairs(m, k, vocabOnly)[i].0).Some?
  {
    ModeMapFails(m, k, vocabOnly);
    assert CodesParse(KeptPairs(m, k, vocabOnly));
  }

  lemma {:induction false} LastLabelNone(kept: seq<(string, string)>, c: string, i: nat)
    requires i < |kept| && kept[i].0 == c
    ensures LastLabel(kept, c).Some?
  {
    if kept[|kept| - 1].0 != c {
      LastLabelNone(kept[..|kept| - 1], c, i);
    }
  }

  /**
   * With distinct codes and distinct labels the two tables are exact
   * inverses over the kept pairs, one entry per kept pair in each.
   */
  lemma ModeMapInverse(modes: string, vocabOnly: bool)
    requires ModeMapOf(modes, vocabOnly).Ok?
    requires var kept := KeptPairs(Tokens(modes), |Tokens(modes)| / 2, vocabOnly);
      Distinct(Codes(kept)) && Distinct(Labels(kept))
    ensures var mm, kept := ModeMapOf(modes, vocabOnly).value, KeptPairs(Tokens(modes), |Tokens(modes)| / 2, vocabOnly);
      && |mm.codeOf| == |mm.labelOf| == |kept|
      && forall j :: 0 <= j < |kept| ==>
           Dict.Get(mm.labelOf, kept[j].0) == Some(kept[j].1) && Dict.Get(mm.codeOf, kept[j].1) == ParseNat(kept[j].0)
  {
    var m := Tokens(modes);
    var k := |m| / 2;
    var kept := KeptPairs(m, k, vocabOnly);
    ModeMapTables(m, k, vocabOnly);
    DedupDistinct(Codes(kept));
    DedupDistinct(Labels(kept));
    forall j | 0 <= j < |kept|
      ensures Dict.Get(ModeMapOf(modes, vocabOnly).value.labelOf, kept[j].0) == Some(kept[j].1)
      ensures Dict.Get(ModeMapOf(modes, vocabOnly).value.codeOf, kept[j].1) == ParseNat(kept[j].0)
    {
      LastLabelOfUniqueCode(kept, j);
      LastCodeOfUniqueLabel(kept, j);
    }
  }

  /** The token list of a `Modes` string, read off a `;`-join of lower-case pieces. */
  lemma TokensOfJoin(modes: string, parts: seq<string>)
    requires |parts| >= 1 && forall i :: 0 <= i < |parts| ==> ';' !in parts[i]
    requires Join(parts, ';') == Lower(modes)
    ensures Tokens(modes) == parts
  {
    SplitJoin(parts, ';');
  }

  /** Tokens with neither an upper-case letter nor the `;` separator. */
  predicate PlainTokens(parts: seq<string>) {
    forall i :: 0 <= i < |parts| ==> forall c :: c in parts[i] ==> !IsUpper(c) && c != ';'
  }

  /** Every character of a join of plain tokens is a token character or `;`. */
  lemma {:induction false} JoinLower(parts: seq<string>)
    requires |parts| >= 1 && PlainTokens(parts)
    ensures forall c :: c in Join(parts, ';') ==> !IsUpper(c)
    decreases |parts|
  {
    if |parts| > 1 {
      assert PlainTokens(parts[1..]) by {
        forall i | 0 <= i < |parts| - 1 ensures parts[1..][i] == parts[i + 1] { }
      }
      JoinLower(parts[1..]);
      assert Join(parts, ';') == parts[0] + [';'] + Join(parts[1..], ';');
    }
  }

  /** The tables of the `Modes` string that joins plain tokens with `;`. */
  lemma ModeMapOfJoin(parts: seq<string>, vocabOnly: bool)
    requires |parts| >= 1 && PlainTokens(parts)
    ensures ModeMapOf(Join(parts, ';'), vocabOnly) == PairsFold(parts, |parts| / 2, vocabOnly)
  {
    var s := Join(parts, ';');
    JoinLower(parts);
    assert Lower(s) == s by {
      forall i | 0 <= i < |s| ensures Lower(s)[i] == s[i] {
        assert s[i] in s;
      }
    }
    TokensOfJoin(s, parts);
  }

  lemma FoldOfExample()
    ensures PairsFold(["0", "auto", "1", "bogus", "2", "cool"], 3, true)
         == Ok(ModeMap([("auto", 0), ("cool", 2)], [("0", "auto"), ("2", "cool")]))
  {
    var m := ["0", "auto", "1", "bogus", "2", "cool"];
    var one := ModeMap([("auto", 0)], [("0", "auto")]);
    assert PairsFold(m, 1, true) == Ok(one) by {
      assert ParseNat("0") == Some(0);
      assert m[0] == "0" && m[1] == "auto" && ThermostatModeLabels[0] == "auto";
      StoredLabelOfVocabulary("auto");
    }
    assert PairsFold(m, 2, true) == Ok(one) by {
      assert !Kept("bogus", true) by {
        assert forall i | 0 <= i < |ThermostatModeLabels| :: |ThermostatModeLabels[i]| != 5;
      }
      assert m[2] == "1" && m[3] == "bogus";
    }
    assert ParseNat("2") == Some(2);
    StoredLabelOfVocabulary("cool");
    assert m[4] == "2" && m[5] == "cool" && ThermostatModeLabels[2] == "cool";
    assert Dict.Put([("auto", 0)], "cool", 2) == [("auto", 0), ("cool", 2)];
    assert Dict.Put([("0", "auto")], "2", "cool") == [("0", "auto"), ("2", "cool")];
  }

  /** The `Modes` string `0;auto;1;bogus;2;cool`: the unrecognised pair is dropped whole, two entries remain. */
  lemma ExampleUnrecognisedPairDropped()
    ensures var r := ModeMapOf(Join(["0", "auto", "1", "bogus", "2", "cool"], ';'), true);
      && r.Ok?
      && r.value.codeOf == [("auto", 0), ("cool", 2)]
      && r.value.labelOf == [("0", "auto"), ("2", "cool")]
  {
    var parts := ["0", "auto", "1", "bogus", "2", "cool"];
    ModeMapOfJoin(parts, true);
    assert |parts| / 2 == 3;
    FoldOfExample();
  }

  lemma FoldOfTrailing()
    ensures PairsFold(["0", "auto", "1"], 1, true) == Ok(ModeMap([("auto", 0)], [("0", "auto")]))
  {
    var m := ["0", "auto", "1"];
    assert ParseNat("0") == Some(0);
    assert m[0] == "0" && m[1] == "auto" && ThermostatModeLabels[0] == "auto";
    StoredLabelOfVocabulary("auto");
    assert PairsFold(m, 0, true) == Ok(EmptyModeMap);
  }

  /** The `Modes` string `0;auto;1`: the trailing unpaired token is ignored without error, one entry remains. */
  lemma ExampleTrailingTokenIgnored()
    ensures var r := ModeMapOf(Join(["0", "auto", "1"], ';'), true);
      r.Ok? && r.value.codeOf == [("auto", 0)] && r.value.labelOf == [("0", "auto")]
  {
    var parts := ["0", "auto", "1"];
    ModeMapOfJoin(parts, true);
    assert |parts| / 2 == 1;
    FoldOfTrailing();
  }

  lemma FoldOfFan()
    ensures PairsFold(["0", "auto low", "1", "on low"], 2, false)
         == Ok(ModeMap([("auto low", 0), ("on low", 1)], [("0", "auto low"), ("1", "on low")]))
  {
    var m := ["0", "auto low", "1", "on low"];
    assert PairsFold(m, 1, false) == Ok(ModeMap([("auto low", 0)], [("0", "auto low")])) by {
      assert ParseNat("0") == Some(0);
      assert PairsFold(m, 0, false) == Ok(EmptyModeMap);
    }
    assert ParseNat("1") == Some(1);
    assert m[2] == "1" && m[3] == "on low";
    assert Dict.Put([("auto low", 0)], "on low", 1) == [("auto low", 0), ("on low", 1)];
    assert Dict.Put([("0", "auto low")], "1", "on low") == [("0", "auto low"), ("1", "on low")];
  }

  /** A fan control keeps labels outside the thermostat vocabulary, spaces included. */
  lemma ExampleFanKeepsEveryLabel()
    ensures var r := ModeMapOf(Join(["0", "auto low", "1", "on low"], ';'), false);
      r.Ok? && r.value.codeOf == [("auto low", 0), ("on low", 1)] && r.value.labelOf == [("0", "auto low"), ("1", "on low")]
  {
    var parts := ["0", "auto low", "1", "on low"];
    ModeMapOfJoin(parts, false);
    assert |parts| / 2 == 2;
    FoldOfFan();
  }

}
