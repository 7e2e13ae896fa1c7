/**
 * The JavaScript values the service handles: parsed JSON request bodies,
 * carrier responses and thrown errors.  Only the parts of the language the
 * service relies on are modelled: truthiness, the `||` operator and
 * property reads, which throw a TypeError on `null` and `undefined`.
 */
module JsValues {
  import opened Wrappers

  /** A JSON-shaped JavaScript value.  Numbers are integers. */
  datatype Js =
    | Undefined
    | Null
    | Bool(b: bool)
    | Num(n: int)
    | Str(s: string)
    | Arr(elems: seq<Js>)
    | Obj(props: map<string, Js>)

  /** A plain object, such as an Express request body. */
  type JsObject = map<string, Js>

  /** The carrier's HTTP response attached to an axios error. */
  datatype Response = Response(status: int, data: Js)

  /**
   * A thrown Error object.  `response` is present only on errors raised by
   * the HTTP client for a reply that arrived with a non-2xx status.
   */
  datatype Error = Error(message: string, response: Option<Response>)

  /** JavaScript truthiness: undefined, null, false, 0 and "" are falsy. */
  predicate Truthy(v: Js)
  {
    match v
    case Undefined => false
    case Null => false
    case Bool(b) => b
    case Num(n) => n != 0
    case Str(s) => s != ""
    case Arr(_) => true
    case Obj(_) => true
  }

  predicate Nullish(v: Js)
  {
    v.Undefined? || v.Null?
  }

  /** `o[key]` on a plain object: the own property, or undefined. */
  function Field(o: JsObject, key: string): (v: Js)
    ensures key !in o ==> v == Undefined
    ensures key in o ==> v == o[key]
  {
    if key in o then o[key] else Undefined
  }

  /**
   * `v[key]` on a value that is neither null nor undefined.  Strings and
   * arrays answer `length`; every other key the service reads is absent from
   * them and from booleans and numbers.
   */
  function Get(v: Js, key: string): (r: Js)
    requires !Nullish(v)
    ensures v.Obj? ==> r == Field(v.props, key)
    ensures (v.Bool? || v.Num?) ==> r == Undefined
    ensures v.Str? ==> r == (if key == "length" then Num(|v.s|) else Undefined)
    ensures v.Arr? ==> r == (if key == "length" then Num(|v.elems|) else Undefined)
  {
    match v
    case Obj(m) => Field(m, key)
    case Str(s) => if key == "length" then Num(|s|) else Undefined
    case Arr(es) => if key == "length" then Num(|es|) else Undefined
    case _ => Undefined
  }

  /** The TypeError V8 raises for `v[key]` when `v` is null or undefined. */
  function ReadError(v: Js, key: string): Error
    requires Nullish(v)
  {
    Error("Cannot read properties of " + (if v.Null? then "null" else "undefined")
          + " (reading '" + key + "')", None)
  }

  /** The TypeError V8 raises when `callee` is called but is not a function. */
  function NotAFunction(callee: string): Error
  {
    Error(callee + " is not a function", None)
  }

  /** `a || b`: the first operand when it is truthy, otherwise the second. */
  function Or(a: Js, b: Js): (r: Js)
    ensures Truthy(a) ==> r == a
    ensures !Truthy(a) ==> r == b
    ensures Truthy(r) <==> Truthy(a) || Truthy(b)
  {
    if Truthy(a) then a else b
  }
}
