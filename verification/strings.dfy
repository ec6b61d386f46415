/**
 * The handful of Python string operations the generator relies on:
 * `str.lower` (ASCII letters), single-character `str.replace`, `in`
 * (substring), `str.startswith`, `str.lstrip`, slicing, `str.split` on one
 * delimiter, `int()` of a decimal numeral and `str()` of a natural number,
 * and the generator's own `ConvertName`.
 */
module Strings {
  import opened Wrappers

  predicate IsUpper(c: char) { 'A' <= c <= 'Z' }

  function LowerChar(c: char): (r: char)
    ensures !IsUpper(r)
    ensures !IsUpper(c) ==> r == c
    ensures IsUpper(c) ==> r as int == c as int + 32 && 'a' <= r <= 'z'
  {
    if IsUpper(c) then (c as int + 32) as char else c
  }

  /** `s.lower()`, restricted to the ASCII letters. */
  function Lower(s: string): (r: string)
    ensures |r| == |s|
    ensures forall i :: 0 <= i < |r| ==> !IsUpper(r[i])
    ensures forall i :: 0 <= i < |r| && !IsUpper(s[i]) ==> r[i] == s[i]
    ensures forall i :: 0 <= i < |r| && IsUpper(s[i]) ==> r[i] as int == s[i] as int + 32
  {
    seq(|s|, i requires 0 <= i < |s| => LowerChar(s[i]))
  }

  lemma LowerIdempotent(s: string)
    ensures Lower(Lower(s)) == Lower(s)
  {
  }

  /** `s.replace(a, b)` for single characters `a` and `b`. */
  function ReplaceChar(s: string, a: char, b: char): (r: string)
    ensures |r| == |s|
    ensures a != b ==> a !in r
    ensures forall i :: 0 <= i < |s| && s[i] != a ==> r[i] == s[i]
    ensures forall i :: 0 <= i < |s| && s[i] == a ==> r[i] == b
    ensures a !in s ==> r == s
  {
    seq(|s|, i requires 0 <= i < |s| => if s[i] == a then b else s[i])
  }

  /** `s.replace(c, '')`: every occurrence of `c` deleted, the rest kept in order. */
  function RemoveChar(s: string, c: char): (r: string)
    ensures c !in r
    ensures |r| <= |s|
    ensures forall x :: x in r ==> x in s
    ensures c !in s ==> r == s
  {
    if s == [] then []
    else if s[0] == c then RemoveChar(s[1..], c)
    else [s[0]] + RemoveChar(s[1..], c)
  }

  lemma {:induction false} RemoveCharAppend(a: string, b: string, c: char)
    ensures RemoveChar(a + b, c) == RemoveChar(a, c) + RemoveChar(b, c)
  {
    if a != [] {
      assert (a + b)[1..] == a[1..] + b;
      RemoveCharAppend(a[1..], b, c);
    } else {
      assert a + b == b;
    }
  }

  /**
   * `name.lower().replace(' ', '_').replace("'", '')`: the entity id the
   * platform derives from a display name.
   */
  function ConvertName(name: string): (r: string)
    ensures ' ' !in r && '\'' !in r
    ensures forall i :: 0 <= i < |r| ==> !IsUpper(r[i])
  {
    var lowered := ReplaceChar(Lower(name), ' ', '_');
    assert forall x :: x in lowered ==> !IsUpper(x);
    RemoveChar(lowered, '\'')
  }

  lemma ConvertNameIdempotent(name: string)
    ensures ConvertName(ConvertName(name)) == ConvertName(name)
  {
    var once := ConvertName(name);
    assert Lower(once) == once;
    assert ReplaceChar(once, ' ', '_') == once;
  }

  /**
   * One character converts to itself lower-cased, a space to an underscore
   * and an apostrophe to nothing.
   */
  lemma ConvertNameChar(c: char)
    ensures ConvertName([c]) == if c == ' ' then "_" else if c == '\'' then "" else [LowerChar(c)]
  {
    assert Lower([c]) == [LowerChar(c)];
    if c == ' ' {
      assert ReplaceChar([' '], ' ', '_') == "_";
      assert RemoveChar("_", '\'') == ['_'] + RemoveChar([], '\'');
    } else {
      var l := [LowerChar(c)];
      assert ReplaceChar(l, ' ', '_') == l;
      assert RemoveChar(l, '\'') == (if c == '\'' then [] else l) + RemoveChar(l[1..], '\'');
    }
  }

  /** A space, an apostrophe and a capital letter, each on its own. */
  lemma ConvertNameSamples()
    ensures ConvertName(" ") == "_" && ConvertName("'") == "" && ConvertName("A") == "a"
  {
    ConvertNameChar(' ');
    ConvertNameChar('\'');
    ConvertNameChar('A');
  }

  /** Converting a concatenation converts its parts independently. */
  lemma ConvertNameAppend(a: string, b: string)
    ensures ConvertName(a + b) == ConvertName(a) + ConvertName(b)
  {
    assert Lower(a + b) == Lower(a) + Lower(b);
    assert ReplaceChar(Lower(a + b), ' ', '_')
        == ReplaceChar(Lower(a), ' ', '_') + ReplaceChar(Lower(b), ' ', '_');
    RemoveCharAppend(ReplaceChar(Lower(a), ' ', '_'), ReplaceChar(Lower(b), ' ', '_'), '\'');
  }

  /** A name already in entity-id form converts to itself. */
  lemma ConvertNamePlain(s: string)
    requires forall i :: 0 <= i < |s| ==> !IsUpper(s[i]) && s[i] != ' ' && s[i] != '\''
    ensures ConvertName(s) == s
  {
    assert Lower(s) == s;
  }

  predicate StartsWith(s: string, prefix: string) {
    |prefix| <= |s| && s[..|prefix|] == prefix
  }

  /** Python's `t in s` for strings: `t` occurs in `s` as a contiguous substring. */
  predicate Contains(s: string, t: string)
    decreases |s|
  {
    StartsWith(s, t) || (|s| > 0 && Contains(s[1..], t))
  }

  lemma {:induction false} ContainsAt(s: string, t: string, i: nat)
    requires i + |t| <= |s| && s[i..i + |t|] == t
    ensures Contains(s, t)
  {
    if i > 0 {
      assert s[1..][i - 1..i - 1 + |t|] == s[i..i + |t|];
      ContainsAt(s[1..], t, i - 1);
    }
  }

  lemma {:induction false} ContainsWitness(s: string, t: string) returns (i: nat)
    requires Contains(s, t)
    ensures i + |t| <= |s| && s[i..i + |t|] == t
    decreases |s|
  {
    if StartsWith(s, t) {
      i := 0;
    } else {
      var j := ContainsWitness(s[1..], t);
      i := j + 1;
      assert s[i..i + |t|] == s[1..][j..j + |t|];
    }
  }

  /** A string contains each of the pieces it is built from. */
  lemma ContainsMiddle(a: string, b: string, c: string)
    ensures Contains(a + b + c, b)
  {
    assert (a + b + c)[|a|..|a| + |b|] == b;
    ContainsAt(a + b + c, b, |a|);
  }

  /** What a string contains, it still contains with more text appended or prepended. */
  lemma ContainsExtend(s: string, t: string, w: string)
    requires Contains(s, t)
    ensures Contains(s + w, t) && Contains(w + s, t)
  {
    var i := ContainsWitness(s, t);
    assert (s + w)[i..i + |t|] == s[i..i + |t|];
    ContainsAt(s + w, t, i);
    assert (w + s)[|w| + i..|w| + i + |t|] == s[i..i + |t|];
    ContainsAt(w + s, t, |w| + i);
  }

  /** Nothing contains a longer string. */
  lemma {:induction false} ContainsShorter(s: string, t: string)
    ensures Contains(s, t) ==> |t| <= |s|
    decreases |s|
  {
    if |s| > 0 {
      ContainsShorter(s[1..], t);
    }
  }

  /** A string containing `t` contains every character of `t`. */
  lemma ContainsChars(s: string, t: string, c: char)
    requires Contains(s, t) && c in t
    ensures c in s
  {
    var i := ContainsWitness(s, t);
    var k :| 0 <= k < |t| && t[k] == c;
    assert s[i + k] == s[i..i + |t|][k];
  }

  /** `s.lstrip(c)`. */
  function LStrip(s: string, c: char): (r: string)
    ensures |r| <= |s| && r == s[|s| - |r|..]
    ensures r == [] || r[0] != c
    ensures forall i :: 0 <= i < |s| - |r| ==> s[i] == c
  {
    if s != [] && s[0] == c then LStrip(s[1..], c) else s
  }

  /** `s[:n]`. */
  function Take(s: string, n: nat): (r: string)
    ensures |r| == if |s| < n then |s| else n
    ensures StartsWith(s, r)
  {
    if |s| <= n then s else s[..n]
  }

  /** `s.split(d)`: the maximal `d`-free pieces between the delimiters, empty pieces included. */
  function Split(s: string, d: char): (r: seq<string>)
    ensures |r| >= 1
    ensures forall i :: 0 <= i < |r| ==> d !in r[i]
    decreases |s|
  {
    if s == [] then [""]
    else
      var rest := Split(s[1..], d);
      if s[0] == d then [""] + rest
      else [[s[0]] + rest[0]] + rest[1..]
  }

  /** `d.join(parts)`. */
  function Join(parts: seq<string>, d: char): string
    requires |parts| >= 1
  {
    if |parts| == 1 then parts[0] else parts[0] + [d] + Join(parts[1..], d)
  }

  /** `d.join(parts)` for a possibly empty list: the empty list joins to the empty string. */
  function JoinAll(parts: seq<string>, d: char): string {
    if parts == [] then "" else Join(parts, d)
  }

  lemma {:induction false} JoinSplit(s: string, d: char)
    ensures Join(Split(s, d), d) == s
    decreases |s|
  {
    if s != [] {
      var rest := Split(s[1..], d);
      JoinSplit(s[1..], d);
      if s[0] == d {
        assert Split(s, d)[1..] == rest;
      } else {
        var r := Split(s, d);
        if |rest| == 1 {
          assert r == [[s[0]] + rest[0]];
        } else {
          assert r[1..] == rest[1..];
          assert Join(rest, d) == rest[0] + [d] + Join(rest[1..], d);
        }
      }
    }
  }

  lemma AppendAssoc<T>(a: seq<T>, b: seq<T>, c: seq<T>)
    ensures (a + b) + c == a + (b + c)
  {
  }

  lemma ConsAppend<T>(p: seq<T>, x: seq<T>)
    requires p != []
    ensures p + x == [p[0]] + (p[1..] + x)
  {
    assert p == [p[0]] + p[1..];
  }

  /** Splitting a string that starts with one character. */
  lemma SplitCons(c: char, s: string, d: char)
    ensures Split([c] + s, d) == if c == d then [""] + Split(s, d)
                                 else [[c] + Split(s, d)[0]] + Split(s, d)[1..]
  {
    assert ([c] + s)[1..] == s;
  }

  /** A delimiter-free prefix joins the first piece of what follows it. */
  lemma {:induction false} SplitPrefix(p: string, s: string, d: char)
    requires d !in p
    ensures Split(p + s, d) == [p + Split(s, d)[0]] + Split(s, d)[1..]
    decreases |p|
  {
    if p != [] {
      var r := Split(s, d);
      var rest := Split(p[1..] + s, d);
      SplitPrefix(p[1..], s, d);
      assert rest[0] == p[1..] + r[0] && rest[1..] == r[1..];
      ConsAppend(p, s);
      SplitCons(p[0], p[1..] + s, d);
      ConsAppend(p, r[0]);
    } else {
      var r := Split(s, d);
      assert p + s == s;
      assert r == [r[0]] + r[1..];
      assert p + r[0] == r[0];
    }
  }

  lemma {:induction false} SplitJoin(parts: seq<string>, d: char)
    requires |parts| >= 1
    requires forall i :: 0 <= i < |parts| ==> d !in parts[i]
    ensures Split(Join(parts, d), d) == parts
    decreases |parts|
  {
    var p := parts[0];
    if |parts| == 1 {
      SplitPrefix(p, "", d);
      assert p + "" == p;
      assert Split("", d) == [""];
    } else {
      var j := Join(parts[1..], d);
      SplitJoin(parts[1..], d);
      SplitCons(d, j, d);
      assert Join(parts, d) == p + ([d] + j);
      SplitPrefix(p, [d] + j, d);
      assert Split([d] + j, d) == [""] + parts[1..];
      assert p + "" == p;
      assert parts == [p] + parts[1..];
    }
  }


  predicate IsDigit(c: char) { '0' <= c <= '9' }

  function DigitValue(c: char): nat
    requires IsDigit(c)
  {
    c as int - '0' as int
  }

  function DigitChar(n: nat): (c: char)
    requires n < 10
    ensures IsDigit(c) && DigitValue(c) == n
  {
    ('0' as int + n) as char
  }

  function DigitsValue(s: string): nat
    requires forall i :: 0 <= i < |s| ==> IsDigit(s[i])
  {
    if s == [] then 0 else 10 * DigitsValue(s[..|s| - 1]) + DigitValue(s[|s| - 1])
  }

  /** `int(s)` for a decimal numeral; `None` where Python's `int` would raise on a non-numeral. */
  function ParseNat(s: string): (r: Option<nat>)
    ensures r.Some? <==> s != [] && forall i :: 0 <= i < |s| ==> IsDigit(s[i])
  {
    if s != [] && forall i :: 0 <= i < |s| ==> IsDigit(s[i]) then Some(DigitsValue(s)) else None
  }

  /** `str(n)`. */
  function NatToString(n: nat): (r: string)
    ensures r != [] && forall i :: 0 <= i < |r| ==> IsDigit(r[i])
  {
    if n < 10 then [DigitChar(n)] else NatToString(n / 10) + [DigitChar(n % 10)]
  }

  lemma {:induction false} NatToStringRoundTrip(n: nat)
    ensures ParseNat(NatToString(n)) == Some(n)
  {
    var s := NatToString(n);
    if n >= 10 {
      NatToStringRoundTrip(n / 10);
      assert s[..|s| - 1] == NatToString(n / 10);
    } else {
      assert s[..|s| - 1] == [];
      assert DigitsValue(s) == 10 * DigitsValue([]) + DigitValue(s[0]);
    }
  }
}
