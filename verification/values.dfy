/**
  Dynamically typed data as the server (JavaScript) and the bridges (Python)
  see it: request bodies, parsed model output and JSON replies. JavaScript's
  `undefined` marks an absent property; Python's `None` is `Null`.
 */
module Values {
  import opened Strings

  datatype Option<+T> = None | Some(value: T)

  /** A computation that either returns a value or throws (JavaScript) / raises (Python). */
  datatype Result<+T> = Ok(value: T) | Err(error: string)

  /** An optional string that a JavaScript `||` chain keeps: present and non-empty. */
  predicate IsSet(v: Option<string>) {
    v.Some? && v.value != ""
  }

  /** `a || b || default` over optional strings. */
  function FirstSet(a: Option<string>, b: Option<string>, default: string): (r: string)
    ensures IsSet(a) ==> r == a.value
    ensures !IsSet(a) && IsSet(b) ==> r == b.value
    ensures !IsSet(a) && !IsSet(b) ==> r == default
  {
    if IsSet(a) then a.value else if IsSet(b) then b.value else default
  }

  /** Numbers are modelled as integers. */
  datatype Value =
    | Undefined
    | Null
    | Bool(b: bool)
    | Num(n: int)
    | Str(s: string)
    | Arr(items: seq<Value>)
    | Obj(fields: map<string, Value>)

  /** `Boolean(v)` in JavaScript: arrays and objects are truthy, even when empty. */
  predicate JsTruthy(v: Value) {
    match v
    case Undefined => false
    case Null => false
    case Bool(b) => b
    case Num(n) => n != 0
    case Str(s) => s != ""
    case Arr(_) => true
    case Obj(_) => true
  }

  /** `bool(v)` in Python: empty lists and dicts are falsy. */
  predicate PyTruthy(v: Value) {
    match v
    case Undefined => false
    case Null => false
    case Bool(b) => b
    case Num(n) => n != 0
    case Str(s) => s != ""
    case Arr(items) => |items| > 0
    case Obj(fields) => |fields| > 0
  }

  predicate IsNullish(v: Value) {
    v.Undefined? || v.Null?
  }

  /** JavaScript `a || b`: the first operand when truthy, else the second. */
  function JsOr(a: Value, b: Value): (r: Value)
    ensures JsTruthy(a) ==> r == a
    ensures !JsTruthy(a) ==> r == b
  {
    if JsTruthy(a) then a else b
  }

  /** JavaScript `a ?? b`: the first operand unless it is `null` or `undefined`. */
  function Nullish(a: Value, b: Value): (r: Value)
    ensures !IsNullish(a) ==> r == a
    ensures IsNullish(a) ==> r == b
  {
    if IsNullish(a) then b else a
  }

  /** An own property of an object, `undefined` when absent. */
  function Field(fields: map<string, Value>, key: string): Value {
    if key in fields then fields[key] else Undefined
  }

  /** JavaScript `v?.key` for the plain-data keys this system reads: a property of
      an object, otherwise `undefined` (none of those keys exists on a string,
      number, boolean or array). */
  function Get(v: Value, key: string): (r: Value)
    ensures !v.Obj? ==> r == Undefined
  {
    if v.Obj? then Field(v.fields, key) else Undefined
  }

  /** JavaScript `v?.[0]`. */
  function Index0(v: Value): Value {
    match v
    case Arr(items) => if |items| > 0 then items[0] else Undefined
    case Str(s) => if |s| > 0 then Str([s[0]]) else Undefined
    case Obj(fields) => Field(fields, "0")
    case _ => Undefined
  }

  /** Python `d.get(key, default)`. */
  function PyGet(fields: map<string, Value>, key: string, default: Value): Value {
    if key in fields then fields[key] else default
  }

  /** JavaScript `String(v)`: arrays render their elements joined by commas, with
      `null` and `undefined` elements rendered empty. */
  function JsString(v: Value): string
    decreases v
  {
    match v
    case Undefined => "undefined"
    case Null => "null"
    case Bool(b) => if b then "true" else "false"
    case Num(n) => IntToString(n)
    case Str(s) => s
    case Arr(items) =>
      Join(",", seq(|items|, i requires 0 <= i < |items| =>
        if IsNullish(items[i]) then "" else JsString(items[i])))
    case Obj(_) => "[object Object]"
  }

  /** Python's class name of a value, as error messages print it. */
  function PyTypeName(v: Value): string {
    match v
    case Undefined => "NoneType"
    case Null => "NoneType"
    case Bool(_) => "bool"
    case Num(_) => "int"
    case Str(_) => "str"
    case Arr(_) => "list"
    case Obj(_) => "dict"
  }

  /** Python `str(v)`. Scalars are rendered here; for a list or dict it is the
      `repr` of the container, which is passed in. */
  function PyStr(v: Value, repr: Value -> string): (r: string)
    ensures v.Str? ==> r == v.s
  {
    match v
    case Null => "None"
    case Bool(b) => if b then "True" else "False"
    case Num(n) => IntToString(n)
    case Str(s) => s
    case _ => repr(v)
  }

  /** The message of the `AttributeError` raised by reading `attr` on `v`. */
  function NoAttributeError(v: Value, attr: string): string {
    "'" + PyTypeName(v) + "' object has no attribute '" + attr + "'"
  }

  /** The message of the `AttributeError` raised by `v.get(...)` on a non-dict. */
  function NoGetError(v: Value): string {
    NoAttributeError(v, "get")
  }
}
