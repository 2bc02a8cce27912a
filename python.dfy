/**
 * The part of Python's runtime the service relies on: the values a decoded JSON
 * document (or a literal dict) can hold, their truthiness, `dict.get`, iteration,
 * `str()` and the exceptions the service's code can raise, with their `str(e)` text.
 */
module Python {
  import opened Wrappers

  /** A Python value as produced by `json.loads` or built from dict and list literals.
      A dict keeps its insertion order as a sequence of key/value entries; a float is
      opaque and carried by its `repr` text (nothing in the service computes with floats). */
  datatype Json =
    | JNull
    | JBool(b: bool)
    | JInt(i: int)
    | JFloat(repr: string)
    | JStr(s: string)
    | JArr(items: seq<Json>)
    | JObj(fields: seq<(string, Json)>)

  type Fields = seq<(string, Json)>

  /** `bool(v)`: None, False, zero, and empty strings, lists and dicts are false. */
  predicate Truthy(j: Json) {
    match j
    case JNull => false
    case JBool(b) => b
    case JInt(i) => i != 0
    case JFloat(r) => r != "0.0" && r != "-0.0"
    case JStr(s) => s != []
    case JArr(xs) => xs != []
    case JObj(fs) => fs != []
  }

  /** `type(v).__name__` */
  function TypeName(j: Json): string {
    match j
    case JNull => "NoneType"
    case JBool(_) => "bool"
    case JInt(_) => "int"
    case JFloat(_) => "float"
    case JStr(_) => "str"
    case JArr(_) => "list"
    case JObj(_) => "dict"
  }

  function Keys(fs: Fields): seq<string> {
    seq(|fs|, i requires 0 <= i < |fs| => fs[i].0)
  }

  /** The value stored under `key` (the first entry with that key; the dicts the model
      builds never repeat a key). */
  function Lookup(fs: Fields, key: string): (r: Option<Json>)
    ensures r.Some? ==> (key, r.value) in fs
  {
    if fs == [] then None
    else if fs[0].0 == key then Some(fs[0].1)
    else Lookup(fs[1..], key)
  }

  /** A lookup comes back empty exactly when no entry has the key. */
  lemma {:induction false} LookupMissing(fs: Fields, key: string)
    ensures Lookup(fs, key).None? <==> key !in Keys(fs)
  {
    if fs != [] {
      assert Keys(fs) == [fs[0].0] + Keys(fs[1..]);
      LookupMissing(fs[1..], key);
    }
  }

  /** No key occurs twice, as in a dict literal. */
  predicate DistinctKeys(fs: Fields) {
    forall a, b :: 0 <= a < b < |fs| ==> fs[a].0 != fs[b].0
  }

  /** In a dict without repeated keys every entry is what its key looks up. */
  lemma {:induction false} LookupDistinct(fs: Fields)
    requires DistinctKeys(fs)
    ensures forall i :: 0 <= i < |fs| ==> Lookup(fs, fs[i].0) == Some(fs[i].1)
  {
    if fs != [] {
      LookupDistinct(fs[1..]);
      forall i | 0 <= i < |fs|
        ensures Lookup(fs, fs[i].0) == Some(fs[i].1)
      {
        if i > 0 {
          assert fs[i] == fs[1..][i - 1];
        }
      }
    }
  }

  /** `d.get(key, default)` */
  function GetOr(fs: Fields, key: string, default: Json): Json {
    Lookup(fs, key).GetOr(default)
  }

  /** `d.get(key)` */
  function Get(fs: Fields, key: string): Json {
    GetOr(fs, key, JNull)
  }

  /** The exceptions the modelled code can raise; `Message()` is `str(e)`. */
  datatype PyError =
    | AttributeError(typeName: string, attribute: string)
    | NotIterable(typeName: string)
    | JoinItemNotStr(index: nat, typeName: string)
    | Unhashable(typeName: string)
    | NotAMapping(callee: string, typeName: string)
    | ValidationError(model: string, field: string)
    | ValueError(text: string)
    | Infra(text: string)
  {
    function Message(): string {
      match this
      case AttributeError(t, a) => "'" + t + "' object has no attribute '" + a + "'"
      case NotIterable(t) => "'" + t + "' object is not iterable"
      case JoinItemNotStr(i, t) => "sequence item " + NatToDecimal(i) + ": expected str instance, " + t + " found"
      case Unhashable(t) => "unhashable type: '" + t + "'"
      case NotAMapping(c, t) => c + " argument after ** must be a mapping, not " + t
      case ValidationError(m, f) => "1 validation error for " + m + "\n" + f
      case ValueError(s) => s
      case Infra(s) => s
    }
  }

  /** The outcome of a call into a store or a bus that returns nothing: the environment
      decides whether it fails, and with what text. */
  function FaultOutcome(fault: Option<string>): (r: Result<(), PyError>)
    ensures r.Success? <==> fault.None?
  {
    if fault.Some? then Failure(Infra(fault.value)) else Success(())
  }

  /** The elements `for x in v` visits: list items, the one-character strings of a
      string, the keys of a dict; other values are not iterable. */
  function IterationItems(j: Json): (r: Result<seq<Json>, PyError>)
    ensures r.Failure? <==> j.JNull? || j.JBool? || j.JInt? || j.JFloat?
    ensures r.Success? ==> (|r.value| == 0 <==> !Truthy(j))
    ensures r.Success? && !j.JArr? ==> forall k :: 0 <= k < |r.value| ==> r.value[k].JStr?
  {
    match j
    case JArr(xs) => Success(xs)
    case JStr(s) => Success(seq(|s|, i requires 0 <= i < |s| => JStr([s[i]])))
    case JObj(fs) => Success(seq(|fs|, i requires 0 <= i < |fs| => JStr(fs[i].0)))
    case _ => Failure(NotIterable(TypeName(j)))
  }

  /** `sep.join(parts)` for strings. */
  function Join(sep: string, parts: seq<string>): string {
    if |parts| == 0 then ""
    else if |parts| == 1 then parts[0]
    else parts[0] + sep + Join(sep, parts[1..])
  }

  function DigitChar(d: nat): char
    requires d < 10
  {
    ['0', '1', '2', '3', '4', '5', '6', '7', '8', '9'][d]
  }

  function HexChar(d: nat): char
    requires d < 16
  {
    ['0', '1', '2', '3', '4', '5', '6', '7', '8', '9', 'a', 'b', 'c', 'd', 'e', 'f'][d]
  }

  predicate IsDigit(c: char) { '0' <= c <= '9' }

  predicate IsLowerHex(c: char) { '0' <= c <= '9' || 'a' <= c <= 'f' }

  /** `str(n)` for a natural number. */
  function NatToDecimal(n: nat): (s: string)
    ensures |s| >= 1 && forall k :: 0 <= k < |s| ==> IsDigit(s[k])
  {
    if n < 10 then [DigitChar(n)] else NatToDecimal(n / 10) + [DigitChar(n % 10)]
  }

  /** The value of a string of decimal digits (the inverse of `NatToDecimal`). */
  function DecimalValue(s: string): nat
    requires forall k :: 0 <= k < |s| ==> IsDigit(s[k])
  {
    if s == [] then 0
    else
      assert IsDigit(s[|s| - 1]);
      10 * DecimalValue(s[..|s| - 1]) + (s[|s| - 1] as int - '0' as int)
  }

  lemma {:induction false} DecimalRoundTrip(n: nat)
    ensures DecimalValue(NatToDecimal(n)) == n
  {
    if n >= 10 {
      var s := NatToDecimal(n);
      assert s[..|s| - 1] == NatToDecimal(n / 10);
      DecimalRoundTrip(n / 10);
    }
  }

  /** `NatToDecimal` is injective, so distinct numbers print differently. */
  lemma DecimalInjective(m: nat, n: nat)
    requires NatToDecimal(m) == NatToDecimal(n)
    ensures m == n
  {
    DecimalRoundTrip(m);
    DecimalRoundTrip(n);
  }

  /** `str(i)` for an integer. */
  function IntToDecimal(i: int): string {
    if i < 0 then "-" + NatToDecimal(-i) else NatToDecimal(i)
  }

  /** Python's `repr` of a string: single quotes unless the text holds a single quote
      and no double quote; backslash, the quote, tab, newline, carriage return and
      the control characters are escaped. */
  function StrRepr(s: string): string {
    var q := if '\'' in s && '"' !in s then '"' else '\'';
    [q] + EscapeAll(s, q) + [q]
  }

  function EscapeAll(s: string, q: char): string {
    if s == [] then [] else EscapeChar(s[0], q) + EscapeAll(s[1..], q)
  }

  function EscapeChar(c: char, q: char): string {
    if c == '\\' || c == q then ['\\', c]
    else if c == '\t' then "\\t"
    else if c == '\n' then "\\n"
    else if c == '\r' then "\\r"
    else if (c as int) < 0x20 || 0x7f <= (c as int) <= 0xa0 || (c as int) == 0xad then
      "\\x" + [HexChar((c as int) / 16), HexChar((c as int) % 16)]
    else [c]
  }

  /** `repr(v)` */
  function Repr(j: Json): string {
    match j
    case JNull => "None"
    case JBool(b) => if b then "True" else "False"
    case JInt(i) => IntToDecimal(i)
    case JFloat(r) => r
    case JStr(s) => StrRepr(s)
    case JArr(xs) => "[" + Join(", ", seq(|xs|, k requires 0 <= k < |xs| => Repr(xs[k]))) + "]"
    case JObj(fs) =>
      "{" + Join(", ", seq(|fs|, k requires 0 <= k < |fs| => StrRepr(fs[k].0) + ": " + Repr(fs[k].1))) + "}"
  }

  /** `str(v)`: a string is itself, every other value prints as its `repr`. */
  function PyStr(j: Json): (r: string)
    ensures j.JStr? ==> r == j.s
    ensures j.JInt? && j.i >= 0 ==> r == NatToDecimal(j.i)
    ensures j.JNull? ==> r == "None"
  {
    if j.JStr? then j.s else Repr(j)
  }
}
