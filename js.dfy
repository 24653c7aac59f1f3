/** The pieces of JavaScript's runtime that the modelled code leans on:
    truthiness, `JSON.parse` results, `String.prototype.trim`, the case maps,
    `String(n)` for integers, `Number(s)`, `split`/`join`, `startsWith` and
    `includes`. */
module Js {
  import opened Wrappers

  // ---------------------------------------------------------------------
  // JSON values and truthiness
  // ---------------------------------------------------------------------

  /** A value produced by `JSON.parse` (numbers are restricted to integers). */
  datatype JsonValue =
    | JNull
    | JBool(b: bool)
    | JNum(n: int)
    | JStr(s: string)
    | JArray(items: seq<JsonValue>)
    | JObject(fields: seq<(string, JsonValue)>)

  /** JavaScript's ToBoolean. */
  predicate Truthy(v: JsonValue) {
    match v
    case JNull => false
    case JBool(b) => b
    case JNum(n) => n != 0
    case JStr(s) => s != ""
    case JArray(_) => true
    case JObject(_) => true
  }

  /** The value of the last field named `key` (JSON.parse keeps the last of
      duplicated keys); None is `undefined`. */
  function LastField(fields: seq<(string, JsonValue)>, key: string): (r: Option<JsonValue>)
    ensures r.Some? <==> exists i :: 0 <= i < |fields| && fields[i].0 == key
    ensures r.Some? ==> exists i :: 0 <= i < |fields| && fields[i] == (key, r.value)
                                   && forall j :: i < j < |fields| ==> fields[j].0 != key
  {
    if |fields| == 0 then None
    else if fields[|fields| - 1].0 == key then Some(fields[|fields| - 1].1)
    else LastField(fields[..|fields| - 1], key)
  }

  /** Property read `v[key]`: only objects have named properties here. */
  function Get(v: JsonValue, key: string): Option<JsonValue> {
    if v.JObject? then LastField(v.fields, key) else None
  }

  /** Property reads on a one-field object literal. */
  lemma Get1(k1: string, v1: JsonValue, key: string)
    ensures Get(JObject([(k1, v1)]), key) == if key == k1 then Some(v1) else None
  {
    assert [(k1, v1)][..0] == [];
  }

  /** Property reads on a two-field object literal. */
  lemma Get2(k1: string, v1: JsonValue, k2: string, v2: JsonValue, key: string)
    ensures Get(JObject([(k1, v1), (k2, v2)]), key) ==
      if key == k2 then Some(v2) else if key == k1 then Some(v1) else None
  {
    assert [(k1, v1), (k2, v2)][..1] == [(k1, v1)];
    Get1(k1, v1, key);
  }

  /** `!!v[key]`, with `undefined` falsy. */
  predicate FieldTruthy(v: JsonValue, key: string) {
    var f := Get(v, key);
    f.Some? && Truthy(f.value)
  }

  /** `v[key] === s` for a string s. */
  predicate FieldIsString(v: JsonValue, key: string, s: string) {
    Get(v, key) == Some(JStr(s))
  }

  // ---------------------------------------------------------------------
  // Characters
  // ---------------------------------------------------------------------

  predicate IsDigit(c: char) { '0' <= c <= '9' }

  /** The characters `String.prototype.trim` removes: WhiteSpace and
      LineTerminator of ECMA-262. */
  predicate IsWhitespace(c: char) {
    c == '\t' || c == '\n' || c == '\U{000B}' || c == '\U{000C}' || c == '\r' || c == ' '
    || c == '\U{00A0}' || c == '\U{1680}' || ('\U{2000}' <= c <= '\U{200A}')
    || c == '\U{2028}' || c == '\U{2029}' || c == '\U{202F}' || c == '\U{205F}'
    || c == '\U{3000}' || c == '\U{FEFF}'
  }

  /** `toLowerCase` of one character, for the characters whose lower case is
      an ASCII letter (A-Z and the Kelvin sign); every other character is
      kept. */
  function LowerChar(c: char): (r: char)
    ensures 'a' <= r <= 'z' <==> ('a' <= c <= 'z' || 'A' <= c <= 'Z' || c == '\U{212A}')
  {
    if 'A' <= c <= 'Z' then (c as int + 32) as char
    else if c == '\U{212A}' then 'k'
    else c
  }

  /** `toUpperCase` of one character, ASCII letters only. */
  function UpperChar(c: char): (r: char)
    ensures 'a' <= c <= 'z' ==> 'A' <= r <= 'Z'
    ensures !('a' <= c <= 'z') ==> r == c
  {
    if 'a' <= c <= 'z' then (c as int - 32) as char else c
  }

  function ToLower(s: string): (r: string)
    ensures |r| == |s|
    ensures forall i :: 0 <= i < |s| ==> r[i] == LowerChar(s[i])
  {
    seq(|s|, i requires 0 <= i < |s| => LowerChar(s[i]))
  }

  function ToUpper(s: string): (r: string)
    ensures |r| == |s|
    ensures forall i :: 0 <= i < |s| ==> r[i] == UpperChar(s[i])
  {
    seq(|s|, i requires 0 <= i < |s| => UpperChar(s[i]))
  }

  /** Lower-casing an already lower-case ASCII word changes nothing. */
  lemma ToLowerOfLowerWord(s: string)
    requires forall i :: 0 <= i < |s| ==> 'a' <= s[i] <= 'z'
    ensures ToLower(s) == s
  {
  }

  // ---------------------------------------------------------------------
  // trim
  // ---------------------------------------------------------------------

  /** Where the whitespace of `s` that starts at index i ends. */
  function TrimStartIndex(s: string, i: nat): (j: nat)
    requires i <= |s|
    ensures i <= j <= |s|
    ensures forall k :: i <= k < j ==> IsWhitespace(s[k])
    ensures j == |s| || !IsWhitespace(s[j])
    decreases |s| - i
  {
    if i < |s| && IsWhitespace(s[i]) then TrimStartIndex(s, i + 1) else i
  }

  /** Where the whitespace of `s[lo..j]` that ends at index j starts. */
  function TrimEndIndex(s: string, lo: nat, j: nat): (e: nat)
    requires lo <= j <= |s|
    ensures lo <= e <= j
    ensures forall k :: e <= k < j ==> IsWhitespace(s[k])
    ensures e == lo || !IsWhitespace(s[e - 1])
    decreases j
  {
    if j > lo && IsWhitespace(s[j - 1]) then TrimEndIndex(s, lo, j - 1) else j
  }

  /** `String.prototype.trim`: the leading whitespace is cut, then the
      trailing whitespace of what is left. */
  function Trim(s: string): string {
    var i := TrimStartIndex(s, 0);
    s[i..TrimEndIndex(s, i, |s|)]
  }

  /** trim keeps a contiguous middle part of its input, starting where the
      leading whitespace ends, drops only whitespace around it and leaves
      none at either end. */
  lemma TrimSpec(s: string)
    ensures var r, i := Trim(s), TrimStartIndex(s, 0);
      && i + |r| <= |s| && r == s[i..i + |r|]
      && (forall k :: 0 <= k < i ==> IsWhitespace(s[k]))
      && (forall k :: i + |r| <= k < |s| ==> IsWhitespace(s[k]))
      && (r == [] || (!IsWhitespace(r[0]) && !IsWhitespace(r[|r| - 1])))
  {
    var i := TrimStartIndex(s, 0);
    var e := TrimEndIndex(s, i, |s|);
    var r := s[i..e];
    if r != [] {
      assert r[0] == s[i] && r[|r| - 1] == s[e - 1];
    }
  }

  /** A prefix `r` of a suffix `a` of `s` is a slice of `s`, and the rest
      of `s` after it is the rest of `a`. */
  lemma MiddleSlice<T>(s: seq<T>, a: seq<T>, r: seq<T>, i: nat)
    requires i <= |s| && a == s[i..] && |r| <= |a| && r == a[..|r|]
    ensures i + |r| <= |s| && r == s[i..i + |r|]
    ensures forall k :: i + |r| <= k < |s| ==> s[k] == a[k - i]
  {
  }

  /** A string with no whitespace at either end is its own trim. */
  lemma TrimNoop(s: string)
    requires s == [] || (!IsWhitespace(s[0]) && !IsWhitespace(s[|s| - 1]))
    ensures Trim(s) == s
  {
  }

  lemma TrimIdempotent(s: string)
    ensures Trim(Trim(s)) == Trim(s)
  {
    TrimSpec(s);
    TrimNoop(Trim(s));
  }

  /** trim of a string is empty exactly when all of it is whitespace. */
  lemma TrimEmpty(s: string)
    ensures Trim(s) == [] <==> forall k :: 0 <= k < |s| ==> IsWhitespace(s[k])
  {
  }

  // ---------------------------------------------------------------------
  // String(n) and Number(s) for integers
  // ---------------------------------------------------------------------

  function DigitChar(d: nat): (c: char)
    requires d < 10
    ensures IsDigit(c)
  {
    ('0' as int + d) as char
  }

  function DigitValue(c: char): (d: nat)
    requires IsDigit(c)
    ensures d < 10 && DigitChar(d) == c
  {
    c as int - '0' as int
  }

  /** Decimal digits of a natural number, no leading zero. */
  function NatToString(n: nat): (r: string)
    ensures |r| >= 1
    ensures forall i :: 0 <= i < |r| ==> IsDigit(r[i])
    ensures |r| > 1 ==> r[0] != '0'
    decreases n
  {
    if n < 10 then [DigitChar(n)] else NatToString(n / 10) + [DigitChar(n % 10)]
  }

  /** `String(n)` for an integer n. */
  function IntToString(n: int): (r: string)
    ensures |r| >= 1
  {
    if n < 0 then "-" + NatToString(-n) else NatToString(n)
  }

  /** The value of a non-empty string of decimal digits. */
  function DigitsValue(s: string): (n: nat)
    requires forall i :: 0 <= i < |s| ==> IsDigit(s[i])
    decreases |s|
  {
    if |s| == 0 then 0 else DigitsValue(s[..|s| - 1]) * 10 + DigitValue(s[|s| - 1])
  }

  predicate AllDigits(s: string) {
    forall i :: 0 <= i < |s| ==> IsDigit(s[i])
  }

  lemma {:induction false} DigitsValueOfNatToString(n: nat)
    ensures AllDigits(NatToString(n)) && DigitsValue(NatToString(n)) == n
    decreases n
  {
    var r := NatToString(n);
    if n >= 10 {
      DigitsValueOfNatToString(n / 10);
      assert r[..|r| - 1] == NatToString(n / 10);
    }
  }

  /** `Number(s)` for a string: surrounding whitespace is ignored, the empty
      string is 0, an optionally signed run of decimal digits is its value;
      every other string is NaN (None). */
  function ParseNumber(s: string): (r: Option<int>)
    ensures AllDigits(Trim(s)) && Trim(s) != [] ==> r == Some(DigitsValue(Trim(s)))
    ensures Trim(s) == [] ==> r == Some(0)
  {
    var t := Trim(s);
    if t == [] then Some(0)
    else if AllDigits(t) then Some(DigitsValue(t))
    else if |t| > 1 && (t[0] == '-' || t[0] == '+') && AllDigits(t[1..]) then
      var v: int := DigitsValue(t[1..]);
      Some(if t[0] == '-' then -v else v)
    else None
  }

  /** `Number(String(n)) === n` for every integer. */
  lemma ParseIntToString(n: int)
    ensures ParseNumber(IntToString(n)) == Some(n)
  {
    var d := NatToString(if n < 0 then -n else n);
    assert AllDigits(d) && DigitsValue(d) == (if n < 0 then -n else n) by {
      DigitsValueOfNatToString(if n < 0 then -n else n);
    }
    if n < 0 {
      ParseNegative(d);
    } else {
      ParseDigits(d);
    }
  }

  /** A run of digits reads as its value. */
  lemma ParseDigits(d: string)
    requires d != [] && AllDigits(d)
    ensures ParseNumber(d) == Some(DigitsValue(d))
  {
    assert !IsWhitespace(d[0]) && !IsWhitespace(d[|d| - 1]) by {
      assert IsDigit(d[0]) && IsDigit(d[|d| - 1]);
    }
    TrimNoop(d);
  }

  /** A minus sign before a run of digits negates its value. */
  lemma ParseNegative(d: string)
    requires d != [] && AllDigits(d)
    ensures ParseNumber("-" + d) == Some(0 - DigitsValue(d))
  {
    var s := "-" + d;
    assert s[0] == '-' && s[1..] == d && s[|s| - 1] == d[|d| - 1];
    assert !IsWhitespace(s[|s| - 1]) by { assert IsDigit(d[|d| - 1]); }
    TrimNoop(s);
    assert !AllDigits(s) by { assert !IsDigit(s[0]); }
  }

  // ---------------------------------------------------------------------
  // split / join, startsWith, includes
  // ---------------------------------------------------------------------

  /** Index of the first `c` in s, or |s| when there is none. */
  function IndexOf(s: string, c: char): (i: nat)
    ensures i <= |s|
    ensures i < |s| ==> s[i] == c
    ensures forall j :: 0 <= j < i ==> s[j] != c
  {
    if |s| == 0 then 0 else if s[0] == c then 0 else 1 + IndexOf(s[1..], c)
  }

  /** `s.split(c)` for a one-character separator. */
  function Split(s: string, c: char): (r: seq<string>)
    ensures |r| >= 1
    ensures forall k :: 0 <= k < |r| ==> c !in r[k]
    decreases |s|
  {
    var i := IndexOf(s, c);
    if i == |s| then [s] else [s[..i]] + Split(s[i + 1..], c)
  }

  /** `parts.join(sep)` for a one-character separator. */
  function Join(parts: seq<string>, sep: char): string {
    if |parts| == 0 then ""
    else if |parts| == 1 then parts[0]
    else parts[0] + [sep] + Join(parts[1..], sep)
  }

  /** Splitting and joining with the same separator gives the string back. */
  lemma {:induction false} JoinSplit(s: string, c: char)
    ensures Join(Split(s, c), c) == s
    decreases |s|
  {
    var i := IndexOf(s, c);
    if i < |s| {
      var rest := Split(s[i + 1..], c);
      var parts := Split(s, c);
      assert parts == [s[..i]] + rest;
      assert parts[0] == s[..i] && parts[1..] == rest;
      JoinSplit(s[i + 1..], c);
      assert Join(parts, c) == s[..i] + [c] + s[i + 1..];
      assert s == s[..i] + [c] + s[i + 1..];
    }
  }

  /** A part before the first separator comes first in the split. */
  lemma SplitCons(a: string, c: char, rest: string)
    requires c !in a
    ensures Split(a + [c] + rest, c) == [a] + Split(rest, c)
  {
    var s := a + [c] + rest;
    var i := IndexOf(s, c);
    assert s[|a|] == c;
    assert i == |a|;
    assert s[..i] == a;
    assert s[i + 1..] == rest;
  }

  lemma SplitNoSep(a: string, c: char)
    requires c !in a
    ensures Split(a, c) == [a]
  {
  }

  predicate StartsWith(s: string, p: string) {
    |p| <= |s| && s[..|p|] == p
  }

  /** `s.includes(t)`, searching from the left. */
  predicate Includes(s: string, t: string)
    decreases |s|
  {
    StartsWith(s, t) || (|s| > 0 && Includes(s[1..], t))
  }

  /** t occurs in s starting at position i. */
  predicate OccursAt(t: string, s: string, i: int) {
    0 <= i <= |s| - |t| && s[i..i + |t|] == t
  }

  /** t occurs in s at some position: the reference meaning of includes. */
  ghost predicate OccursIn(t: string, s: string) {
    exists i :: OccursAt(t, s, i)
  }

  lemma {:induction false} IncludesIffOccurs(s: string, t: string)
    ensures Includes(s, t) <==> OccursIn(t, s)
    decreases |s|
  {
    if StartsWith(s, t) {
      assert OccursAt(t, s, 0);
    } else if |s| > 0 {
      IncludesIffOccurs(s[1..], t);
      if OccursIn(t, s[1..]) {
        var i :| OccursAt(t, s[1..], i);
        OccursShift(t, s, i);
      }
      if OccursIn(t, s) {
        var i :| OccursAt(t, s, i);
        NotAtZero(t, s);
        OccursUnshift(t, s, i);
      }
    }
  }

  /** An occurrence in the tail is an occurrence one place further on. */
  lemma OccursShift(t: string, s: string, i: int)
    requires |s| > 0 && OccursAt(t, s[1..], i)
    ensures OccursAt(t, s, i + 1)
  {
    assert s[i + 1..i + 1 + |t|] == s[1..][i..i + |t|];
  }

  /** An occurrence past the first place is one in the tail. */
  lemma OccursUnshift(t: string, s: string, i: int)
    requires |s| > 0 && i > 0 && OccursAt(t, s, i)
    ensures OccursAt(t, s[1..], i - 1)
  {
    assert s[1..][i - 1..i - 1 + |t|] == s[i..i + |t|];
  }

  /** An occurrence at the first place is a prefix. */
  lemma NotAtZero(t: string, s: string)
    requires !StartsWith(s, t)
    ensures !OccursAt(t, s, 0)
  {
    if |t| <= |s| {
      assert s[0..|t|] == s[..|t|];
    }
  }

  /** t placed inside a string is included in it. */
  lemma IncludesInfix(a: string, t: string, b: string)
    ensures Includes(a + t + b, t)
  {
    var s := a + t + b;
    assert s[|a|..|a| + |t|] == t;
    assert OccursAt(t, s, |a|);
    IncludesIffOccurs(s, t);
  }

  /** What a string includes, a longer one with more in front includes. */
  lemma IncludesPrepend(s: string, t: string, u: string)
    requires Includes(u, t)
    ensures Includes(s + u, t)
  {
    IncludesIffOccurs(u, t);
    var i :| OccursAt(t, u, i);
    assert (s + u)[|s| + i..|s| + i + |t|] == u[i..i + |t|];
    assert OccursAt(t, s + u, |s| + i);
    IncludesIffOccurs(s + u, t);
  }

  // ---------------------------------------------------------------------
  // String(v), Number(v) and property reads on parsed values
  // ---------------------------------------------------------------------

  /** `String(v)` of a value parsed from a request body. */
  function JsString(v: JsonValue): string
    decreases v, 1
  {
    match v
    case JNull => "null"
    case JBool(b) => if b then "true" else "false"
    case JNum(n) => IntToString(n)
    case JStr(s) => s
    case JArray(items) => JoinElements(items, v)
    case JObject(_) => "[object Object]"
  }

  /** `Array.prototype.join(',')`: null elements become empty text. */
  function JoinElements(items: seq<JsonValue>, ghost whole: JsonValue): string
    requires forall i :: 0 <= i < |items| ==> items[i] < whole
    decreases whole, 0, |items|
  {
    if |items| == 0 then ""
    else
      var first := if items[0].JNull? then "" else JsString(items[0]);
      if |items| == 1 then first else first + "," + JoinElements(items[1..], whole)
  }

  /** `String(v || '')`: a falsy or missing value gives ''. */
  function TextOr(v: Option<JsonValue>): (r: string)
    ensures v.None? || !Truthy(v.value) ==> r == ""
    ensures v.Some? && v.value.JStr? ==> r == v.value.s
  {
    if v.Some? && Truthy(v.value) then JsString(v.value) else ""
  }

  /** `v?.[key]` on a possibly missing value. */
  function GetOpt(v: Option<JsonValue>, key: string): Option<JsonValue> {
    if v.Some? then Get(v.value, key) else None
  }

  /** `Number(v)`; None is NaN, a missing value is `undefined`. Arrays and
      objects convert through their text, as JavaScript does. */
  function ToNumber(v: Option<JsonValue>): (r: Option<int>)
    ensures v.Some? && v.value.JNum? ==> r == Some(v.value.n)
    ensures v.Some? && v.value.JStr? ==> r == ParseNumber(v.value.s)
    ensures v.None? ==> r.None?
  {
    if v.None? then None
    else match v.value
      case JNull => Some(0)
      case JBool(b) => Some(if b then 1 else 0)
      case JNum(n) => Some(n)
      case _ => ParseNumber(JsString(v.value))
  }

  /** `String(body[key] || '').trim()`: a form field as text. */
  function FormText(body: JsonValue, key: string): string {
    Trim(TextOr(Get(body, key)))
  }

  /** `Number(v || d)`: a falsy or missing value counts as `d`. */
  function NumberOr(v: Option<JsonValue>, d: int): (r: Option<int>)
    ensures v.None? || !Truthy(v.value) ==> r == Some(d)
    ensures v.Some? && Truthy(v.value) ==> r == ToNumber(v)
  {
    if v.Some? && Truthy(v.value) then ToNumber(v) else Some(d)
  }
}
