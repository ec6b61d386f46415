/**
 * The climate display names: the `id:name,id:name` override string read
 * into a table keyed by cluster key, and the name a cluster's climate
 * entry then carries.
 */
module Overrides {
  import opened Wrappers
  import opened Strings
  import opened Docs
  import Dict

  const DefaultName := "Thermostat"

  /** The table after the first `n` comma-separated pieces; a piece must split into exactly two on `:`. */
  function OverrideFold(pieces: seq<string>, n: nat): Result<Dict.Dict<string, string>, Error>
    requires n <= |pieces|
  {
    if n == 0 then Ok([])
    else
      match OverrideFold(pieces, n - 1)
      case Err(e) => Err(e)
      case Ok(d) =>
        var kv := Split(pieces[n - 1], ':');
        if |kv| != 2 then Err(BadOverride(pieces[n - 1])) else Ok(Dict.Put(d, kv[0], kv[1]))
  }

  /**
   * The override table. An empty override string never binds the table,
   * so reading it fails.
   */
  function OverridesOf(names: string): Result<Dict.Dict<string, string>, Error> {
    if names == "" then Err(UnboundOverrides)
    else
      var pieces := Split(names, ',');
      OverrideFold(pieces, |pieces|)
  }

  /** The loop that reads the override string piece by piece. */
  method ParseOverrides(names: string) returns (r: Result<Dict.Dict<string, string>, Error>)
    ensures r == OverridesOf(names)
  {
    if names == "" {
      return Err(UnboundOverrides);
    }
    var pieces := Split(names, ',');
    var table: Dict.Dict<string, string> := [];
    for i := 0 to |pieces|
      invariant OverrideFold(pieces, i) == Ok(table)
    {
      var kv := Split(pieces[i], ':');
      if |kv| != 2 {
        r := Err(BadOverride(pieces[i]));
        OverrideErrorSticks(pieces, i + 1, |pieces|);
        return;
      }
      table := Dict.Put(table, kv[0], kv[1]);
    }
    r := Ok(table);
  }

  lemma {:induction false} OverrideErrorSticks(pieces: seq<string>, n: nat, n': nat)
    requires n <= n' <= |pieces|
    requires OverrideFold(pieces, n).Err?
    ensures OverrideFold(pieces, n') == OverrideFold(pieces, n)
    decreases n' - n
  {
    if n < n' {
      OverrideErrorSticks(pieces, n, n' - 1);
    }
  }

  /** The name a cluster's climate entry carries: a non-empty override, else the default. */
  function ClimateName(table: Dict.Dict<string, string>, key: string): (r: string)
    ensures r != ""
  {
    match Dict.Get(table, key)
    case Some(v) => if v != "" then v else DefaultName
    case None => DefaultName
  }

  /** The override string written for a list of (key, name) pairs. */
  function Piece(p: (string, string)): string {
    p.0 + ":" + p.1
  }

  function Render(pairs: seq<(string, string)>): string
    requires |pairs| >= 1
  {
    Join(seq(|pairs|, i requires 0 <= i < |pairs| => Piece(pairs[i])), ',')
  }

  predicate Plain(s: string) {
    ',' !in s && ':' !in s
  }

  /**
   * Reading a rendered override string gives back the table: a listed key
   * maps to its name, and the table has no other keys.
   */
  lemma OverridesRoundTrip(pairs: seq<(string, string)>)
    requires |pairs| >= 1
    requires forall i :: 0 <= i < |pairs| ==> Plain(pairs[i].0) && Plain(pairs[i].1)
    requires Dict.DistinctKeys(pairs)
    ensures OverridesOf(Render(pairs)) == Ok(Dict.PutAll([], pairs))
    ensures forall k :: Dict.Get(Dict.PutAll([], pairs), k) == Dict.Get(pairs, k)
  {
    RenderedFold(pairs);
    forall k ensures Dict.Get(Dict.PutAll([], pairs), k) == Dict.Get(pairs, k) {
      Dict.PutAllGet([], pairs, k);
      Dict.GetNone(pairs, k);
    }
  }

  lemma RenderedFold(pairs: seq<(string, string)>)
    requires |pairs| >= 1
    requires forall i :: 0 <= i < |pairs| ==> Plain(pairs[i].0) && Plain(pairs[i].1)
    ensures OverridesOf(Render(pairs)) == Ok(Dict.PutAll([], pairs))
  {
    var pieces := seq(|pairs|, i requires 0 <= i < |pairs| => Piece(pairs[i]));
    forall i | 0 <= i < |pieces| ensures ',' !in pieces[i] {
      PiecePlain(pairs[i]);
    }
    SplitJoin(pieces, ',');
    PiecesNonEmpty(pieces);
    FoldRendered(pairs, pieces, |pairs|);
    assert pairs[..|pairs|] == pairs;
  }

  lemma PiecePlain(p: (string, string))
    requires Plain(p.0) && Plain(p.1)
    ensures ',' !in Piece(p) && ':' in Piece(p)
  {
    assert Piece(p)[|p.0|] == ':';
  }

  lemma PiecesNonEmpty(pieces: seq<string>)
    requires |pieces| >= 1 && pieces[0] != ""
    ensures Join(pieces, ',') != ""
  {
  }

  lemma {:induction false} FoldRendered(pairs: seq<(string, string)>, pieces: seq<string>, n: nat)
    requires n <= |pairs| == |pieces|
    requires forall i :: 0 <= i < |pairs| ==> Plain(pairs[i].0) && Plain(pairs[i].1) && pieces[i] == Piece(pairs[i])
    ensures OverrideFold(pieces, n) == Ok(Dict.PutAll([], pairs[..n]))
  {
    if n > 0 {
      FoldRendered(pairs, pieces, n - 1);
      var p := pairs[n - 1];
      assert Join([p.0, p.1], ':') == Piece(p);
      SplitJoin([p.0, p.1], ':');
      assert pairs[..n][..n - 1] == pairs[..n - 1];
    }
  }

  /**
   * With a rendered override string, a listed key with a non-empty name is
   * shown under that name and any other key under the default.
   */
  lemma NameFromOverrides(pairs: seq<(string, string)>, key: string)
    requires |pairs| >= 1
    requires forall i :: 0 <= i < |pairs| ==> Plain(pairs[i].0) && Plain(pairs[i].1)
    requires Dict.DistinctKeys(pairs)
    ensures OverridesOf(Render(pairs)).Ok?
    ensures var name := ClimateName(OverridesOf(Render(pairs)).value, key);
      && (forall i :: 0 <= i < |pairs| && pairs[i].0 == key && pairs[i].1 != "" ==> name == pairs[i].1)
      && (key !in Dict.Keys(pairs) ==> name == DefaultName)
  {
    OverridesRoundTrip(pairs);
    Dict.GetNone(pairs, key);
    forall i | 0 <= i < |pairs| && pairs[i].0 == key
      ensures Dict.Get(pairs, key) == Some(pairs[i].1)
    {
      Dict.GetIndex(pairs, i);
    }
  }
}
