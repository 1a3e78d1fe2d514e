/**
 * The JavaScript values the form handlers store and test: truthiness, and the
 * number conversions `Number(v)` and `parseFloat(v)`. Parsing a numeric string
 * is left to a parser passed in (None stands for NaN).
 */
module Js {
  import opened Wrappers
  import Strings

  /** A JavaScript number: a real value or NaN (infinities are not modelled). */
  datatype Number = Real(r: real) | NaN {
    function Plus(other: Number): (s: Number)
      ensures s.Real? <==> Real? && other.Real?
    {
      if Real? && other.Real? then Real(r + other.r) else NaN
    }
    /** `n || 0`: NaN and 0 both become 0. */
    function OrZero(): real {
      if Real? then r else 0.0
    }
  }

  /** The values that the source keeps in loosely typed form objects. */
  datatype Value = Undefined | Null | Bool(b: bool) | Num(n: Number) | Str(s: string)

  /** JavaScript truthiness. */
  predicate Truthy(v: Value) {
    match v
    case Undefined => false
    case Null => false
    case Bool(b) => b
    case Num(n) => n.Real? && n.r != 0.0
    case Str(s) => s != ""
  }

  /** `v || ""` for a value that is a string when present. */
  function StrOrEmpty(v: Value): (s: string)
    ensures v.Str? ==> s == v.s
    ensures !v.Str? ==> s == ""
  {
    if v.Str? then v.s else ""
  }

  /** `Number(v)`; blank strings are 0, other strings go to `parse`. */
  function ToNumber(v: Value, parse: string -> Option<real>): (n: Number)
    ensures v.Undefined? ==> n == NaN
    ensures v.Num? ==> n == v.n
    ensures v.Str? && Strings.Trim(v.s) == "" ==> n == Real(0.0)
  {
    match v
    case Undefined => NaN
    case Null => Real(0.0)
    case Bool(b) => Real(if b then 1.0 else 0.0)
    case Num(n) => n
    case Str(s) =>
      var t := Strings.Trim(s);
      if t == "" then Real(0.0)
      else match parse(t) { case Some(r) => Real(r) case None => NaN }
  }

  /** `parseFloat(v)`; a number passes through, an empty string is NaN. */
  function ParseFloat(v: Value, parse: string -> Option<real>): (n: Number)
    ensures v.Num? ==> n == v.n
    ensures v == Str("") ==> n == NaN
  {
    match v
    case Num(n) => n
    case Str(s) =>
      var t := Strings.TrimStart(s);
      if t == "" then NaN
      else match parse(t) { case Some(r) => Real(r) case None => NaN }
    case _ => NaN
  }

  /** `String(v)`; the decimal text of a finite number is left to `numText`. */
  function ToString(v: Value, numText: real -> string): (s: string)
    ensures v.Str? ==> s == v.s
  {
    match v
    case Undefined => "undefined"
    case Null => "null"
    case Bool(b) => if b then "true" else "false"
    case Num(n) => if n.NaN? then "NaN" else numText(n.r)
    case Str(s) => s
  }

  /** A loosely typed record: a missing property reads as undefined. */
  type Record = map<string, Value>

  function Get(r: Record, key: string): (v: Value)
    ensures key !in r ==> v == Undefined
  {
    if key in r then r[key] else Undefined
  }
}
