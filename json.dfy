/** A stand-in for the JSON documents the gateway reads with gjson: a JSON value, path
    lookup, and gjson's `Exists`, `IsArray`, `String`, `Int` and `Array` accessors. */
module JsonDoc {
  import opened Base
  import opened Text

  /** A JSON value. Numbers are integers in this model. */
  datatype Json =
    | Null
    | Bool(b: bool)
    | Num(n: int)
    | Str(s: string)
    | Arr(items: seq<Json>)
    | Obj(fields: map<string, Json>)

  /** One component of a gjson path: a member name on an object, a decimal index on an array. */
  function Step(j: Json, key: string): Option<Json> {
    match j
    case Obj(fields) => if key in fields then Some(fields[key]) else None
    case Arr(items) =>
      if |key| > 0 && AllDigits(key) && DigitsValue(key) < |items| then Some(items[DigitsValue(key)]) else None
    case _ => None
  }

  /** `result.Get("a.b.0.c")` with the path given as its components; `None` is a result
      that does not exist. */
  function Get(j: Json, path: seq<string>): Option<Json>
    decreases |path|
  {
    if path == [] then Some(j)
    else
      match Step(j, path[0])
      case None => None
      case Some(child) => Get(child, path[1..])
  }

  /** Looking up `p + q` is looking up `p`, then `q` from there. */
  lemma {:induction false} GetAppend(j: Json, p: seq<string>, q: seq<string>)
    ensures Get(j, p + q) == match Get(j, p) case None => None case Some(c) => Get(c, q)
    decreases |p|
  {
    if p != [] {
      assert (p + q)[1..] == p[1..] + q;
      match Step(j, p[0])
      case None =>
      case Some(c) => GetAppend(c, p[1..], q);
    } else {
      assert p + q == q;
    }
  }

  /** gjson's `Exists`: the result is present (a JSON `null` is present). */
  predicate Exists(r: Option<Json>) { r.Some? }

  /** gjson's `Type.String()`: objects and arrays are both "JSON". */
  function TypeName(j: Json): string {
    match j
    case Null => "Null"
    case Bool(b) => if b then "True" else "False"
    case Num(_) => "Number"
    case Str(_) => "String"
    case Arr(_) => "JSON"
    case Obj(_) => "JSON"
  }

  /** gjson's `IsArray`. */
  predicate IsArray(r: Option<Json>) { r.Some? && r.value.Arr? }

  /** gjson's `String`: the text of a string, the literal of a number or boolean, "" for
      a missing result or `null`; an object or array also gives "" here, where gjson gives
      its raw JSON text. */
  function AsString(r: Option<Json>): string {
    match r
    case None => ""
    case Some(Str(s)) => s
    case Some(Num(n)) => Itoa(n)
    case Some(Bool(b)) => if b then "true" else "false"
    case Some(_) => ""
  }

  /** gjson's `Int`. */
  function AsInt(r: Option<Json>): int {
    match r
    case Some(Num(n)) => n
    case Some(Bool(b)) => if b then 1 else 0
    case Some(Str(s)) => AtoiOrZero(s)
    case _ => 0
  }

  /** gjson's `Array`: the elements of an array, nothing for a missing result or `null`,
      and a one-element list for any other value. */
  function AsArray(r: Option<Json>): (items: seq<Json>)
    ensures IsArray(r) ==> items == r.value.items
    ensures !Exists(r) ==> items == []
  {
    match r
    case None => []
    case Some(Null) => []
    case Some(Arr(items)) => items
    case Some(v) => [v]
  }
}
