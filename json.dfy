/**
 * JSON values as the peers exchange them, and the data-channel frames that
 * carry them. `JSON.stringify` and `JSON.parse` are kept abstract: a frame is
 * either the encoding of a value or text that does not parse.
 */
module Json {
  import opened Wrappers
  import JsBuiltins

  /** A JSON value; numbers are restricted to integers. */
  datatype Value =
    | Null
    | Bool(b: bool)
    | Num(n: int)
    | Str(s: string)
    | Arr(items: seq<Value>)
    | Obj(fields: map<string, Value>)

  /** One message on the data channel. */
  datatype Frame = Encoded(value: Value) | Unparsable(text: string)

  /** `JSON.stringify`. */
  function Stringify(v: Value): (f: Frame)
    ensures Parse(f) == Some(v)
  {
    Encoded(v)
  }

  /** `JSON.parse(frame.toString())`: fails exactly on text that is not JSON. */
  function Parse(f: Frame): (r: Option<Value>)
    ensures r.None? <==> f.Unparsable?
  {
    match f
    case Encoded(v) => Some(v)
    case Unparsable(_) => None
  }

  /** Property access `v.key`: `None` is `undefined` (absent key, or `v` not an object). */
  function Field(v: Value, key: string): (r: Option<Value>)
    ensures r.Some? <==> v.Obj? && key in v.fields
    ensures r.Some? ==> r.value == v.fields[key]
  {
    if v.Obj? && key in v.fields then Some(v.fields[key]) else None
  }

  /** JavaScript truthiness of a property read; `undefined` is falsy. */
  function Truthy(v: Option<Value>): (r: bool)
    ensures v.Some? && v.value.Str? ==> (r <==> v.value.s != "")
    ensures v.Some? && v.value.Num? ==> (r <==> v.value.n != 0)
    ensures v.None? || v == Some(Null) ==> !r
    ensures v.Some? && (v.value.Arr? || v.value.Obj?) ==> r
  {
    match v
    case None => false
    case Some(Null) => false
    case Some(Bool(b)) => b
    case Some(Num(n)) => n != 0
    case Some(Str(s)) => s != ""
    case Some(Arr(_)) => true
    case Some(Obj(_)) => true
  }

  /** Decimal digits of a natural number. */
  function NatText(n: nat): (r: string)
    ensures |r| > 0
    ensures forall k :: 0 <= k < |r| ==> '0' <= r[k] <= '9'
  {
    var d := ['0' + (n % 10) as char];
    if n < 10 then d else NatText(n / 10) + d
  }

  /** `String(v)`, which a template literal `${v}` applies. */
  function ToText(v: Value): string
    decreases v
  {
    match v
    case Null => "null"
    case Bool(b) => if b then "true" else "false"
    case Num(n) => if n < 0 then "-" + NatText(-n) else NatText(n)
    case Str(s) => s
    case Arr(items) =>
      // Array.prototype.toString: the elements joined by ',', with null as ''
      JsBuiltins.Join(seq(|items|, i requires 0 <= i < |items| =>
                            if items[i].Null? then "" else ToText(items[i])), ",")
    case Obj(_) => "[object Object]"
  }
}
