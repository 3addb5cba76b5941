/**
 * The small part of PHP's value model and string library that the plugin
 * relies on: loosely typed values and their truthiness, `isset` on array
 * offsets, `array_merge` and `unset` on string-keyed arrays, and the string
 * functions `substr($s, 1)`, `explode`, `implode` and `str_replace`.
 */
module Php {

  datatype Option<+T> = None | Some(value: T)

  /** A PHP value as it can appear in Composer's configuration. Arrays are
      modelled by their string keys only (see README, "Left out"). */
  datatype PhpValue =
    | PNull
    | PBool(b: bool)
    | PInt(i: int)
    | PStr(s: string)
    | PArray(entries: map<string, PhpValue>)

  /** PHP's falsy strings: the empty string and "0". */
  predicate FalsyString(s: string) {
    s == "" || s == "0"
  }

  /** PHP's boolean conversion (`if ($v)`, `!$v`). */
  predicate Truthy(v: PhpValue) {
    match v
    case PNull => false
    case PBool(b) => b
    case PInt(i) => i != 0
    case PStr(s) => !FalsyString(s)
    case PArray(m) => m != map[]
  }

  /** Which values PHP treats as false: null, false, 0, "", "0" and the
      empty array; every other string, even "00" or "false", is true. */
  lemma PhpTruthiness()
    ensures !Truthy(PNull) && !Truthy(PBool(false)) && !Truthy(PInt(0))
    ensures !Truthy(PStr("")) && !Truthy(PStr("0")) && !Truthy(PArray(map[]))
    ensures Truthy(PStr("00")) && Truthy(PStr(" ")) && Truthy(PStr("false"))
    ensures Truthy(PArray(map["" := PNull]))
  {
    assert "" in map["" := PNull];
  }

  /** A string argument that may be null. */
  function StrOrNull(o: Option<string>): PhpValue {
    if o.Some? then PStr(o.value) else PNull
  }

  /** `isset($v)`: set and not null. */
  predicate IsSet(v: PhpValue) {
    !v.PNull?
  }

  /** Reading `$v[$k]` for a non-numeric string key `$k`: only arrays have
      such an offset; on every other value the read yields null. */
  function Offset(v: PhpValue, k: string): (r: PhpValue)
    ensures IsSet(r) ==> v.PArray? && k in v.entries && r == v.entries[k]
    ensures v.PArray? && k in v.entries ==> r == v.entries[k]
  {
    if v.PArray? && k in v.entries then v.entries[k] else PNull
  }

  /** `isset($m[$k])` on an array. */
  predicate IssetKey(m: map<string, PhpValue>, k: string) {
    k in m && IsSet(m[k])
  }

  /** `array_merge($a, $b)` on string keys: every key of either, the
      later array's value winning. */
  function ArrayMerge(a: map<string, PhpValue>, b: map<string, PhpValue>): (r: map<string, PhpValue>)
    ensures r.Keys == a.Keys + b.Keys
    ensures forall k :: k in b ==> r[k] == b[k]
    ensures forall k :: k in a && k !in b ==> r[k] == a[k]
  {
    a + b
  }

  /** `substr($s, 1)`: everything after the first character, "" when there is none. */
  function DropFirst(s: string): (r: string)
    ensures |s| > 0 ==> [s[0]] + r == s
    ensures |s| == 0 ==> r == ""
  {
    if |s| == 0 then "" else s[1..]
  }

  /** The position of the first `c` in `s`. */
  function IndexOf(s: string, c: char): (i: nat)
    requires c in s
    ensures i < |s| && s[i] == c && c !in s[..i]
  {
    if s[0] == c then 0 else 1 + IndexOf(s[1..], c)
  }

  /** `explode($d, $s)` for a one-character delimiter. */
  function Explode(d: char, s: string): (parts: seq<string>)
    ensures |parts| >= 1
    ensures forall i :: 0 <= i < |parts| ==> d !in parts[i]
    decreases |s|
  {
    if d in s then
      var i := IndexOf(s, d);
      [s[..i]] + Explode(d, s[i + 1..])
    else
      [s]
  }

  /** `implode($d, $parts)` for a one-character glue. */
  function Implode(d: char, parts: seq<string>): (s: string)
    ensures (forall i :: 0 <= i < |parts| ==> d !in parts[i]) ==> (d in s <==> |parts| > 1)
    decreases |parts|
  {
    if |parts| == 0 then ""
    else if |parts| == 1 then parts[0]
    else
      var s := parts[0] + [d] + Implode(d, parts[1..]);
      assert s[|parts[0]|] == d;
      s
  }

  /** Joining the pieces of `explode` gives back the string. */
  lemma {:induction false} ImplodeExplode(d: char, s: string)
    ensures Implode(d, Explode(d, s)) == s
    decreases |s|
  {
    if d in s {
      var i := IndexOf(s, d);
      var rest := s[i + 1..];
      ImplodeExplode(d, rest);
      assert Explode(d, s) == [s[..i]] + Explode(d, rest);
      assert s == s[..i] + [d] + rest;
    }
  }

  /** Splitting a join of delimiter-free pieces gives back the pieces. */
  lemma {:induction false} ExplodeImplode(d: char, parts: seq<string>)
    requires |parts| >= 1
    requires forall i :: 0 <= i < |parts| ==> d !in parts[i]
    ensures Explode(d, Implode(d, parts)) == parts
    decreases |parts|
  {
    if |parts| > 1 {
      var s := Implode(d, parts);
      var tail := Implode(d, parts[1..]);
      assert s == parts[0] + [d] + tail;
      assert s[|parts[0]|] == d;
      JoinIndex(parts[0], d, tail);
      ExplodeImplode(d, parts[1..]);
      assert s[|parts[0]| + 1..] == tail;
    }
  }

  /** The first delimiter of `a + [d] + b` is the one after `a` when `a` has none. */
  lemma JoinIndex(a: string, d: char, b: string)
    requires d !in a
    ensures d in a + [d] + b && IndexOf(a + [d] + b, d) == |a|
    ensures (a + [d] + b)[..|a|] == a && (a + [d] + b)[|a| + 1..] == b
  {
    var s := a + [d] + b;
    assert s[|a|] == d;
    var i := IndexOf(s, d);
    assert forall j :: 0 <= j < |a| ==> s[j] == a[j];
    assert i <= |a| by { assert d !in s[..i]; }
    assert s[..|a|] == a;
    assert s[|a| + 1..] == b;
  }

  /** `search` occurs somewhere in `s`. */
  predicate Occurs(search: string, s: string)
    decreases |s|
  {
    |search| <= |s| && (s[..|search|] == search || Occurs(search, s[1..]))
  }

  /** `str_replace($search, $replace, $subject)`: every occurrence, scanned
      left to right and without overlap, is replaced; an empty `search`
      leaves the subject alone. */
  function StrReplace(search: string, replace: string, subject: string): (r: string)
    ensures replace == "" ==> |r| <= |subject|
    decreases |subject|
  {
    if |search| == 0 || |subject| < |search| then subject
    else if subject[..|search|] == search then replace + StrReplace(search, replace, subject[|search|..])
    else [subject[0]] + StrReplace(search, replace, subject[1..])
  }

  /** Without an occurrence of `search`, `str_replace` changes nothing. */
  lemma {:induction false} StrReplaceWithoutOccurrence(search: string, replace: string, subject: string)
    requires !Occurs(search, subject)
    ensures StrReplace(search, replace, subject) == subject
    decreases |subject|
  {
    if |search| > 0 && |subject| >= |search| {
      StrReplaceWithoutOccurrence(search, replace, subject[1..]);
      assert [subject[0]] + subject[1..] == subject;
    }
  }

  /** An occurrence of `search` starts at position `j` of `s`. */
  predicate MatchAt(search: string, s: string, j: nat) {
    j + |search| <= |s| && s[j..j + |search|] == search
  }

  /** No occurrence of `search` starts at one of the first `n` positions of `s`. */
  predicate NoMatchBefore(search: string, s: string, n: nat) {
    forall j: nat :: j < n ==> !MatchAt(search, s, j)
  }

  /** A prefix in which no match starts is copied unchanged, and the match
      right after it is replaced. */
  lemma {:induction false} StrReplaceAfterPrefix(search: string, replace: string, prefix: string, rest: string)
    requires |search| > 0 && NoMatchBefore(search, prefix + search + rest, |prefix|)
    ensures StrReplace(search, replace, prefix + search + rest)
         == prefix + replace + StrReplace(search, replace, rest)
    decreases |prefix|
  {
    var s := prefix + search + rest;
    if |prefix| == 0 {
      assert s == search + rest;
      assert s[..|search|] == search;
      assert s[|search|..] == rest;
    } else {
      var tail := prefix[1..] + search + rest;
      assert s[1..] == tail;
      StrReplaceStep(search, replace, s);
      NoMatchShift(search, s, |prefix| - 1);
      StrReplaceAfterPrefix(search, replace, prefix[1..], rest);
      assert [prefix[0]] + prefix[1..] == prefix;
    }
  }

  /** Where no match starts, the first character is copied. */
  lemma StrReplaceStep(search: string, replace: string, s: string)
    requires |search| > 0 && |s| > 0 && !MatchAt(search, s, 0)
    ensures StrReplace(search, replace, s) == [s[0]] + StrReplace(search, replace, s[1..])
  {
  }

  /** Dropping the first character shifts the match-free positions by one. */
  lemma NoMatchShift(search: string, s: string, n: nat)
    requires |s| > 0 && NoMatchBefore(search, s, n + 1)
    ensures NoMatchBefore(search, s[1..], n)
  {
    forall j: nat | j < n
      ensures !MatchAt(search, s[1..], j)
    {
      assert !MatchAt(search, s, j + 1);
      if j + |search| <= |s| - 1 {
        assert s[1..][j..j + |search|] == s[j + 1..j + 1 + |search|];
      }
    }
  }

  /** A prefix without the first character of `search` cannot start a match. */
  lemma NoMatchInForeignPrefix(search: string, prefix: string, rest: string)
    requires |search| > 0 && search[0] !in prefix
    ensures NoMatchBefore(search, prefix + search + rest, |prefix|)
  {
  }
}
