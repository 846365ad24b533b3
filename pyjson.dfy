/**
 * Decoded JSON payloads as Python sees them after `response.json()`, and the
 * few Python operations the client code applies to them: `d.get(k, default)`,
 * truthiness, iteration, `==` against an integer, `isinstance(x, (int, float))`
 * and `int(x)`.
 */
module PyJson {
  import opened Wrappers

  /**
   * A decoded JSON value. JSON numbers decode to Python `int` or `float`, kept
   * apart as `JInt` and `JFloat`. An object is a Python dict: its entries in
   * insertion order, each key once.
   */
  datatype Json =
    | JNull
    | JBool(b: bool)
    | JInt(i: int)
    | JFloat(r: real)
    | JStr(s: string)
    | JArr(elems: seq<Json>)
    | JObj(fields: seq<(string, Json)>)

  /** The entry for `key` in a dict's entry list: that of its first occurrence. */
  function Lookup(fields: seq<(string, Json)>, key: string): Option<Json>
  {
    if fields == [] then None
    else if fields[0].0 == key then Some(fields[0].1)
    else Lookup(fields[1..], key)
  }

  /** A key is found exactly when some entry has it, and what is found is that entry's value. */
  lemma {:induction false} LookupFinds(fields: seq<(string, Json)>, key: string)
    ensures Lookup(fields, key).Some? <==> exists k :: 0 <= k < |fields| && fields[k].0 == key
    ensures Lookup(fields, key).Some? ==>
      exists k :: 0 <= k < |fields| && fields[k] == (key, Lookup(fields, key).value)
  {
    if fields != [] && fields[0].0 != key {
      LookupFinds(fields[1..], key);
      assert forall k :: 1 <= k < |fields| ==> fields[k] == fields[1..][k - 1];
    }
  }

  /** The entry found is that of the first occurrence of `key`. */
  lemma {:induction false} LookupFirst(fields: seq<(string, Json)>, key: string, i: int)
    requires 0 <= i < |fields| && fields[i].0 == key
    requires forall j :: 0 <= j < i ==> fields[j].0 != key
    ensures Lookup(fields, key) == Some(fields[i].1)
  {
    if i > 0 {
      assert forall j :: 0 <= j < i - 1 ==> fields[1..][j] == fields[j + 1];
      LookupFirst(fields[1..], key, i - 1);
    }
  }

  /** The keys of `fields` are distinct, as in every Python dict. */
  predicate DistinctKeys(fields: seq<(string, Json)>)
  {
    forall i, j :: 0 <= i < j < |fields| ==> fields[i].0 != fields[j].0
  }

  /** With distinct keys, a key's one entry is the one found. */
  lemma LookupDistinct(fields: seq<(string, Json)>, key: string, i: int)
    requires DistinctKeys(fields)
    requires 0 <= i < |fields| && fields[i].0 == key
    ensures Lookup(fields, key) == Some(fields[i].1)
  {
    LookupFirst(fields, key, i);
  }

  /** `d.get(key, default)` on a dict with entries `fields`. */
  function Get(fields: seq<(string, Json)>, key: string, default: Json): Json
  {
    Lookup(fields, key).GetOr(default)
  }

  /** Python's `bool(x)`. */
  predicate Truthy(j: Json)
  {
    match j
    case JNull => false
    case JBool(b) => b
    case JInt(i) => i != 0
    case JFloat(r) => r != 0.0
    case JStr(s) => s != []
    case JArr(xs) => xs != []
    case JObj(fs) => fs != []
  }

  /** The keys of a dict, in insertion order. */
  function Keys(fields: seq<(string, Json)>): (ks: seq<Json>)
    ensures |ks| == |fields|
    ensures forall k :: 0 <= k < |fields| ==> ks[k] == JStr(fields[k].0)
  {
    if fields == [] then [] else [JStr(fields[0].0)] + Keys(fields[1..])
  }

  /**
   * What `for x in j` iterates over: the elements of a list, the one-character
   * strings of a string, the keys of a dict; `None` when Python raises
   * `TypeError` (the value is not iterable).
   */
  function Iterate(j: Json): (xs: Option<seq<Json>>)
    ensures j.JArr? ==> xs == Some(j.elems)
    ensures xs.Some? <==> (j.JArr? || j.JStr? || j.JObj?)
    ensures xs.Some? ==> (xs.value == [] <==> !Truthy(j))
  {
    match j
    case JArr(elems) => Some(elems)
    case JStr(s) => Some(seq(|s|, k requires 0 <= k < |s| => JStr([s[k]])))
    case JObj(fields) => Some(Keys(fields))
    case _ => None
  }

  /** Python's `j == n` for an integer `n` (`True == 1`, `20000.0 == 20000`). */
  predicate EqualsInt(j: Json, n: int)
  {
    match j
    case JBool(b) => (if b then 1 else 0) == n
    case JInt(i) => i == n
    case JFloat(r) => r == n as real
    case _ => false
  }

  /** `isinstance(j, (int, float))`: bools are ints in Python. */
  predicate IsNumber(j: Json)
  {
    j.JBool? || j.JInt? || j.JFloat?
  }

  /** `float(j)` for a number. */
  function NumberValue(j: Json): real
    requires IsNumber(j)
  {
    match j
    case JBool(b) => if b then 1.0 else 0.0
    case JInt(i) => i as real
    case JFloat(r) => r
  }

  /** Truncation toward zero, as `int(x)` does for a float. */
  function Truncate(r: real): (n: int)
    ensures r >= 0.0 ==> 0 <= n && n as real <= r < n as real + 1.0
    ensures r < 0.0 ==> n <= 0 && n as real - 1.0 < r <= n as real
  {
    if r >= 0.0 then r.Floor else -((-r).Floor)
  }

  predicate IsDigit(c: char)
  {
    '0' <= c <= '9'
  }

  /** The value of a string of decimal digits. */
  function DigitsValue(s: string): (n: nat)
    requires forall k :: 0 <= k < |s| ==> IsDigit(s[k])
  {
    if s == [] then 0
    else
      assert IsDigit(s[|s| - 1]);
      DigitsValue(s[..|s| - 1]) * 10 + (s[|s| - 1] as int - '0' as int)
  }

  /** `int(s)` for an optional sign followed by ASCII digits; `None` when Python raises `ValueError`. */
  function ParseInt(s: string): Option<int>
  {
    var signed := s != [] && (s[0] == '-' || s[0] == '+');
    var digits := if signed then s[1..] else s;
    var sign := if signed && s[0] == '-' then -1 else 1;
    if digits != [] && forall k :: 0 <= k < |digits| ==> IsDigit(digits[k])
    then Some(sign * DigitsValue(digits))
    else None
  }

  /** Python's `int(j)`; `None` when it raises. */
  function ToInt(j: Json): Option<int>
  {
    match j
    case JBool(b) => Some(if b then 1 else 0)
    case JInt(i) => Some(i)
    case JFloat(r) => Some(Truncate(r))
    case JStr(s) => ParseInt(s)
    case _ => None
  }

  /** `int()` of the decimal rendering of a natural number gives the number back. */
  lemma {:induction false} ParseIntOfDigits(n: nat)
    ensures forall k :: 0 <= k < |DecimalDigits(n)| ==> IsDigit(DecimalDigits(n)[k])
    ensures ParseInt(DecimalDigits(n)) == Some(n)
  {
    DigitsRoundTrip(n);
  }

  /** The decimal rendering of a natural number, without leading zeros. */
  function DecimalDigits(n: nat): (s: string)
    ensures s != [] && forall k :: 0 <= k < |s| ==> IsDigit(s[k])
    ensures s[0] != '-' && s[0] != '+'
  {
    if n < 10 then [('0' as int + n) as char]
    else DecimalDigits(n / 10) + [('0' as int + n % 10) as char]
  }

  lemma {:induction false} DigitsRoundTrip(n: nat)
    ensures DigitsValue(DecimalDigits(n)) == n
  {
    if n >= 10 {
      var s := DecimalDigits(n);
      assert s[..|s| - 1] == DecimalDigits(n / 10);
      DigitsRoundTrip(n / 10);
    }
  }
}
