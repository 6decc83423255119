/**
 * JSON values as the controller returns them, with the JavaScript operators the
 * core applies to them: truthiness, `||`, optional property access and
 * template-literal string conversion.
 */
module Json {
  import opened Seqs

  /** A JavaScript value decoded from JSON, plus `undefined`. Numbers are integers here. */
  datatype Json =
    | Undefined
    | Null
    | Bool(b: bool)
    | Num(n: int)
    | Str(s: string)
    | Arr(items: seq<Json>)
    | Obj(fields: map<string, Json>)

  /** JavaScript truthiness: arrays and objects are truthy even when empty. */
  predicate Truthy(v: Json) {
    match v
    case Undefined => false
    case Null => false
    case Bool(b) => b
    case Num(n) => n != 0
    case Str(s) => s != ""
    case Arr(_) => true
    case Obj(_) => true
  }

  /** The falsy values are exactly undefined, null, false, 0 and the empty string. */
  lemma FalsyValues(v: Json)
    ensures !Truthy(v) <==> v in [Undefined, Null, Bool(false), Num(0), Str("")]
  {
  }

  /** `null` and `undefined`: the values whose property access throws a TypeError. */
  predicate Nullish(v: Json) {
    v.Null? || v.Undefined?
  }

  /** `a || b`: the left operand when it is truthy, else the right one. */
  function Or(a: Json, b: Json): (r: Json)
    ensures Truthy(a) ==> r == a
    ensures !Truthy(a) ==> r == b
  {
    if Truthy(a) then a else b
  }

  /** `v?.key`: a property of an object; undefined for a missing key, for null or undefined, and for primitives and arrays. */
  function Get(v: Json, key: string): (r: Json)
    ensures v.Obj? && key in v.fields ==> r == v.fields[key]
    ensures !(v.Obj? && key in v.fields) ==> r == Undefined
  {
    match v
    case Obj(fields) => if key in fields then fields[key] else Undefined
    case _ => Undefined
  }

  /** String conversion of a value interpolated into a template literal. */
  function JsString(v: Json): (r: string)
    ensures v.Undefined? ==> r == "undefined"
    ensures v.Null? ==> r == "null"
    ensures v.Bool? ==> r == if v.b then "true" else "false"
    ensures v.Str? ==> r == v.s
    ensures v.Num? ==> r == IntToString(v.n)
    ensures v.Arr? ==> r == JoinElements(v, v.items)
    decreases v, 1
  {
    match v
    case Undefined => "undefined"
    case Null => "null"
    case Bool(b) => if b then "true" else "false"
    case Num(n) => IntToString(n)
    case Str(s) => s
    case Arr(items) => JoinElements(v, items)
    case Obj(_) => "[object Object]"
  }

  /** `Array.prototype.toString`: elements joined by ",", where null and undefined print as "". */
  function JoinElements(whole: Json, items: seq<Json>): (r: string)
    requires forall x | x in items :: x < whole
    ensures items == [] ==> r == ""
    decreases whole, 0, |items|
  {
    if items == [] then ""
    else
      assert items[0] in items;
      assert forall x | x in items[1..] :: x in items;
      var head := ElementString(items[0]);
      if |items| == 1 then head else head + "," + JoinElements(whole, items[1..])
  }

  /** An array element as `Array.prototype.toString` prints it. */
  function ElementString(x: Json): string {
    if Nullish(x) then "" else JsString(x)
  }

  /** `Array.prototype.toString` is `join(",")` of the element strings. */
  lemma {:induction false} JoinElementsIsJoin(whole: Json, items: seq<Json>)
    requires forall x | x in items :: x < whole
    ensures JoinElements(whole, items) == Join(seq(|items|, i requires 0 <= i < |items| => ElementString(items[i])), ",")
    decreases |items|
  {
    var strs := seq(|items|, i requires 0 <= i < |items| => ElementString(items[i]));
    if |items| > 1 {
      assert forall x | x in items[1..] :: x in items;
      JoinElementsIsJoin(whole, items[1..]);
      assert strs[1..] == seq(|items[1..]|, i requires 0 <= i < |items[1..]| => ElementString(items[1..][i]));
    }
  }

  /** The TypeError message of reading property `key` of null or undefined. */
  function ReadError(v: Json, key: string): string
    requires Nullish(v)
  {
    "Cannot read properties of " + (if v.Null? then "null" else "undefined") + " (reading '" + key + "')"
  }
}
