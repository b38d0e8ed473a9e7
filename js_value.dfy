/** JSON values as `JSON.parse` produces them, and what the handlers do with them in
    JavaScript: test their truthiness, read properties with `.` and `?.`, and turn them
    into strings with `+`. Parsing itself is not modelled: it is passed to the handlers as
    an uninterpreted partial function from text to a value. */
module JsValue {
  import opened Base
  import opened JsString

  /** A parsed JSON value. Numbers are modelled as integers. */
  datatype Json =
    | Null
    | Bool(b: bool)
    | Number(n: int)
    | Str(s: string)
    | Array(items: seq<Json>)
    | Object(members: map<string, Json>)

  /** JavaScript truthiness; `undefined` (None) is falsy. */
  predicate Truthy(v: Option<Json>) {
    match v
    case None => false
    case Some(Null) => false
    case Some(Bool(b)) => b
    case Some(Number(n)) => n != 0
    case Some(Str(s)) => s != ""
    case Some(Array(_)) => true
    case Some(Object(_)) => true
  }

  /** The array index a property key names: a decimal numeral without leading zeros. */
  function IndexKey(key: string): (r: Option<nat>)
    ensures r.Some? ==> |key| >= 1 && forall i :: 0 <= i < |key| ==> '0' <= key[i] <= '9'
  {
    if |key| >= 1 && (forall i :: 0 <= i < |key| ==> '0' <= key[i] <= '9') && (|key| == 1 || key[0] != '0')
    then Some(DigitsValue(key, 10))
    else None
  }

  /** `v[key]` on a value that is neither null nor undefined; None is `undefined`.
      Arrays and strings answer index keys; numbers and booleans have none of the
      properties the handlers read. */
  function Prop(v: Json, key: string): Option<Json>
    requires !v.Null?
  {
    match v
    case Object(m) => if key in m then Some(m[key]) else None
    case Array(items) =>
      (match IndexKey(key)
       case Some(i) => if i < |items| then Some(items[i]) else None
       case None => None)
    case Str(s) =>
      (match IndexKey(key)
       case Some(i) => if i < |s| then Some(Str([s[i]])) else None
       case None => None)
    case _ => None
  }

  /** The methods every object literal inherits from `Object.prototype`. */
  const PrototypeMethods: set<string> := {
    "constructor", "hasOwnProperty", "isPrototypeOf", "propertyIsEnumerable", "toLocaleString",
    "toString", "valueOf", "__defineGetter__", "__defineSetter__", "__lookupGetter__", "__lookupSetter__"}

  /** A key an object literal answers without defining it: one of the inherited methods,
      or the `__proto__` accessor. */
  predicate Inherited(key: string) {
    key in PrototypeMethods || key == "__proto__"
  }

  /** What `+` makes of an inherited property of an object literal, as V8 prints it: a
      built-in function's source text `function name() { [native code] }`, where the
      inherited `constructor` is the function `Object`; and for `__proto__`, which
      yields `Object.prototype` itself, "[object Object]". */
  function InheritedText(key: string): string
    requires Inherited(key)
  {
    if key == "__proto__" then "[object Object]"
    else "function " + (if key == "constructor" then "Object" else key) + "() { [native code] }"
  }

  /** `v?.[key]`: undefined when `v` is null or undefined. */
  function OptProp(v: Option<Json>, key: string): Option<Json> {
    match v
    case None => None
    case Some(Null) => None
    case Some(j) => Prop(j, key)
  }

  /** `String(v)`, which is what `text += v` appends. */
  function ToJsString(v: Json): string
    decreases v
  {
    match v
    case Null => "null"
    case Bool(b) => if b then "true" else "false"
    case Number(n) => IntToString(n)
    case Str(s) => s
    case Array(items) =>
      // Array.prototype.join: null elements become the empty string
      Join(seq(|items|, i requires 0 <= i < |items| =>
             if items[i].Null? then "" else ToJsString(items[i])), ",")
    case Object(_) => "[object Object]"
  }
}
