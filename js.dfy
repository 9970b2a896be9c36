/**
 * The slice of JavaScript values and built-in operations that the generator,
 * the generated client and the manifest helper rely on.  Objects keep their own
 * properties in insertion order, as `Object.keys` and object spread observe them.
 */
module Js {

  datatype Option<+T> = None | Some(value: T)

  /** A JSON-like JavaScript value.  Numbers are integers. */
  datatype Value =
    | Undefined
    | Null
    | Bool(b: bool)
    | Num(n: int)
    | Str(s: string)
    | Arr(items: seq<Value>)
    | Obj(fields: seq<(string, Value)>)

  /** The own properties of an object, in insertion order. */
  type Fields = seq<(string, Value)>

  /** What a JavaScript `throw` carries in this model. */
  datatype Exception =
    | TypeError                     // property read on null/undefined, call of a missing method
    | ReferenceError(name: string)  // read of an undeclared identifier
    | Error(message: string)        // `new Error(message)`

  /** The outcome of evaluating JavaScript code that may throw. */
  datatype Result<+T> = Ok(value: T) | Throw(exception: Exception) {
    predicate IsFailure() { Throw? }
    function PropagateFailure<U>(): Result<U>
      requires Throw?
    {
      Throw(exception)
    }
    function Extract(): T
      requires Ok?
    {
      value
    }
  }

  predicate Nullish(v: Value) { v.Undefined? || v.Null? }

  /** ToBoolean: the values an `if`, `||` or `!!` treats as true. */
  predicate Truthy(v: Value) {
    match v
    case Undefined => false
    case Null => false
    case Bool(b) => b
    case Num(n) => n != 0
    case Str(s) => s != ""
    case _ => true
  }

  /** `x = d` in a destructuring pattern: the default applies to undefined only. */
  function OrDefault(v: Value, d: Value): Value {
    if v.Undefined? then d else v
  }

  // ---------------------------------------------------------------------------
  // Objects as ordered property lists

  function KeysOf(fields: Fields): (keys: seq<string>)
    ensures |keys| == |fields|
    ensures forall i :: 0 <= i < |fields| ==> keys[i] == fields[i].0
  {
    if fields == [] then [] else [fields[0].0] + KeysOf(fields[1..])
  }

  predicate Distinct(keys: seq<string>) {
    forall i, j :: 0 <= i < j < |keys| ==> keys[i] != keys[j]
  }

  /** What every real JavaScript object satisfies: no property name twice. */
  predicate DistinctKeys(fields: Fields) { Distinct(KeysOf(fields)) }

  /** `o[k]` on an object's own properties: the value stored under `k`, or undefined. */
  function Lookup(fields: Fields, k: string): (v: Value)
    ensures k !in KeysOf(fields) ==> v == Undefined
  {
    if fields == [] then Undefined
    else if fields[0].0 == k then fields[0].1
    else Lookup(fields[1..], k)
  }

  /** The key order after defining `k`: unchanged if present, `k` last otherwise. */
  function Extend(keys: seq<string>, k: string): seq<string> {
    if k in keys then keys else keys + [k]
  }

  /**
   * `o[k] = v`, and a later `k: v` in an object literal after a spread: a property
   * that exists keeps its position and takes the new value; a new one goes last.
   */
  function Define(fields: Fields, k: string, v: Value): (r: Fields)
    ensures Lookup(r, k) == v
    ensures forall j :: j != k ==> Lookup(r, j) == Lookup(fields, j)
    ensures KeysOf(r) == Extend(KeysOf(fields), k)
  {
    if fields == [] then [(k, v)]
    else if fields[0].0 == k then [(k, v)] + fields[1..]
    else
      var rest := Define(fields[1..], k, v);
      assert KeysOf([fields[0]] + rest) == [fields[0].0] + KeysOf(rest);
      [fields[0]] + rest
  }

  /** Defining a property never introduces a duplicate key. */
  lemma DefineKeepsDistinct(fields: Fields, k: string, v: Value)
    requires DistinctKeys(fields)
    ensures DistinctKeys(Define(fields, k, v))
  {
    var keys := KeysOf(fields);
    if k !in keys {
      assert forall i :: 0 <= i < |keys| ==> (keys + [k])[i] == keys[i] && keys[i] != k;
    }
  }

  /** A property read `v[k]` on a value that is not null or undefined. */
  function Get(v: Value, k: string): Value {
    if v.Obj? then Lookup(v.fields, k) else Undefined
  }

  /** A property read `v[k]`: null and undefined have no properties and throw. */
  function Member(v: Value, k: string): Result<Value> {
    if Nullish(v) then Throw(TypeError) else Ok(Get(v, k))
  }

  /** `Object.keys(v)`. */
  function OwnKeys(v: Value): Result<seq<string>> {
    if Nullish(v) then Throw(TypeError)
    else if v.Obj? then Ok(KeysOf(v.fields))
    else Ok([])
  }

  /** The properties `...v` copies into an object literal (spreading null or undefined copies nothing). */
  function OwnFields(v: Value): Fields {
    if v.Obj? then v.fields else []
  }

  // ---------------------------------------------------------------------------
  // Conversion to text

  function DigitChar(d: nat): char
    requires d < 10
  {
    "0123456789"[d]
  }

  /** The decimal numeral of a natural number, without leading zeros. */
  function NatToDecimal(n: nat): (s: string)
    ensures |s| >= 1
  {
    if n < 10 then [DigitChar(n)] else NatToDecimal(n / 10) + [DigitChar(n % 10)]
  }

  function IntToDecimal(n: int): string {
    if n < 0 then "-" + NatToDecimal(-n) else NatToDecimal(n)
  }

  /** ToString: template literals, `+` with a string operand and computed property keys. */
  function ToStr(v: Value): string
    decreases v, 1
  {
    match v
    case Undefined => "undefined"
    case Null => "null"
    case Bool(b) => if b then "true" else "false"
    case Num(n) => IntToDecimal(n)
    case Str(s) => s
    case Obj(_) => "[object Object]"
    case Arr(_) => JoinItems(v, 0)
  }

  /** `Array.prototype.join(",")` from index `i` on; null and undefined elements give empty text. */
  function JoinItems(v: Value, i: nat): string
    requires v.Arr? && i <= |v.items|
    decreases v, 0, |v.items| - i
  {
    if i == |v.items| then ""
    else
      (if i == 0 then "" else ",")
      + (if Nullish(v.items[i]) then "" else ToStr(v.items[i]))
      + JoinItems(v, i + 1)
  }

  // ---------------------------------------------------------------------------
  // Strings

  predicate OccursAt(s: string, pat: string, i: nat) {
    i + |pat| <= |s| && s[i..i + |pat|] == pat
  }

  /** `s.indexOf(pat, from)`: the first position at or after `from` where `pat` occurs, or -1. */
  function IndexOf(s: string, pat: string, from: nat): (r: int)
    decreases |s| - from
    ensures r == -1 || (from <= r && OccursAt(s, pat, r))
    ensures r == -1 ==> forall i: nat :: from <= i ==> !OccursAt(s, pat, i)
    ensures r != -1 ==> forall i: nat :: from <= i < r ==> !OccursAt(s, pat, i)
  {
    if from + |pat| > |s| then -1
    else if OccursAt(s, pat, from) then from
    else IndexOf(s, pat, from + 1)
  }

  /** `s.replace(pat, rep)` with a string pattern: only the first occurrence is replaced. */
  function ReplaceFirst(s: string, pat: string, rep: string): string {
    var i := IndexOf(s, pat, 0);
    if i == -1 then s else s[..i] + rep + s[i + |pat|..]
  }

  function UpperChar(c: char): char {
    if 'a' <= c <= 'z' then (c as int - 32) as char else c
  }

  /** `s.toUpperCase()` for ASCII text. */
  function Upper(s: string): string {
    if s == [] then [] else [UpperChar(s[0])] + Upper(s[1..])
  }
}
