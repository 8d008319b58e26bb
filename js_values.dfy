/** The dynamic JavaScript values that travel over the event bus as payloads,
    with the two pieces of JavaScript semantics the core relies on: the
    nullish test of `??` and the falsy test of `||`, and what an object
    spread `{...v}` copies out of a value. */
module JsValues {

  datatype Option<+T> = None | Some(value: T)

  /** A JavaScript value as far as the storefront core uses one. Numbers are
      the integers the catalog prices are; objects are their own enumerable
      properties. */
  datatype Value =
    | Undefined
    | Null
    | Num(n: int)
    | Str(s: string)
    | Arr(items: seq<Value>)
    | Obj(fields: map<string, Value>)

  /** The object literal `{}`. */
  const EmptyObject: Value := Obj(map[])

  /** `v ?? d` takes `d` exactly when `v` is null or undefined. */
  predicate Nullish(v: Value) {
    v.Undefined? || v.Null?
  }

  /** `v || d` takes `d` exactly when `v` is falsy. */
  predicate Falsy(v: Value) {
    match v
    case Undefined => true
    case Null => true
    case Num(n) => n == 0
    case Str(s) => s == ""
    case Arr(_) => false
    case Obj(_) => false
  }

  /** The decimal spelling of an array index, as a property key. */
  function DecimalString(n: nat): (r: string)
    ensures |r| > 0
  {
    var digit := "0123456789"[n % 10];
    if n < 10 then [digit] else DecimalString(n / 10) + [digit]
  }

  /** The index-keyed properties of an array-like value: "0", "1", ... */
  function Indexed(items: seq<Value>): map<string, Value>
  {
    if items == [] then map[]
    else Indexed(items[..|items| - 1])[DecimalString(|items| - 1) := items[|items| - 1]]
  }

  /** The properties `{...v}` copies: an object's own properties, the
      elements of an array and the characters of a string under their
      indices, and nothing for a number, null or undefined. */
  function Spread(v: Value): map<string, Value>
  {
    match v
    case Obj(fields) => fields
    case Arr(items) => Indexed(items)
    case Str(s) => Indexed(seq(|s|, i requires 0 <= i < |s| => Str([s[i]])))
    case _ => map[]
  }

  /** `v || {}` */
  function OrEmpty(v: Value): Value {
    if Falsy(v) then EmptyObject else v
  }

  /** Replacing a falsy value by `{}` before spreading it copies the same
      properties: every falsy value spreads to nothing. */
  lemma SpreadOrEmpty(v: Value)
    ensures Spread(OrEmpty(v)) == Spread(v)
  {
    if Falsy(v) {
      match v
      case Str(s) =>
        assert s == "";
        assert seq(|s|, i requires 0 <= i < |s| => Str([s[i]])) == [];
      case _ =>
    }
  }
}
