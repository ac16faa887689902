/** JavaScript values as the Redux slices and the expenses page see them:
    the JSON the REST backend answers with, plus `undefined`. Numbers are
    integers here. */
module JsValue {
  import opened Wrappers
  import JsString

  datatype Value =
    | Undefined
    | Null
    | Bool(b: bool)
    | Num(n: int)
    | Str(s: string)
    | Arr(items: seq<Value>)
    | Obj(fields: map<string, Value>)

  /** `v == null`: the values on which a property access throws a TypeError. */
  predicate Nullish(v: Value)
  {
    v.Undefined? || v.Null?
  }

  /** JavaScript's ToBoolean: what `if (v)`, `!!v` and `v && …` test. */
  predicate Truthy(v: Value)
  {
    match v
    case Undefined => false
    case Null => false
    case Bool(b) => b
    case Num(n) => n != 0
    case Str(s) => s != ""
    case Arr(_) => true
    case Obj(_) => true
  }

  /** `v.k` on a value that is not nullish: an own field of an object,
      `undefined` for anything else (none of the field names the frontend
      reads is a built-in property of strings or arrays). */
  function Field(v: Value, k: string): Value
  {
    if v.Obj? && k in v.fields then v.fields[k] else Undefined
  }

  /** `v.k`; None when the access throws because `v` is null or undefined. */
  function Get(v: Value, k: string): Option<Value>
  {
    if Nullish(v) then None else Some(Field(v, k))
  }

  /** `v?.k`: optional chaining never throws. */
  function OptionalField(v: Value, k: string): Value
  {
    if Nullish(v) then Undefined else Field(v, k)
  }

  /** The own fields that `{...v}` copies (spreading a non-empty string or an
      array, which copies indexed elements, is not modelled). */
  function Own(v: Value): map<string, Value>
  {
    if v.Obj? then v.fields else map[]
  }

  /** `{...a, ...b}`: the fields of `b` override those of `a`. */
  function Merge(a: Value, b: Value): (r: Value)
    ensures r.Obj?
    ensures forall k :: k in Own(b) ==> Field(r, k) == Field(b, k)
    ensures forall k :: k !in Own(b) ==> Field(r, k) == Field(a, k)
  {
    Obj(Own(a) + Own(b))
  }

  /** `String(v)`, as `localStorage.setItem` and `parseInt` convert their
      argument; an array renders its elements joined by commas, with null and
      undefined elements as empty strings. */
  function ToStr(v: Value): (text: string)
    ensures v.Str? ==> text == v.s
    ensures v.Num? ==> text == JsString.IntToString(v.n)
    ensures v.Null? ==> text == "null"
    ensures v.Undefined? ==> text == "undefined"
    decreases v
  {
    match v
    case Undefined => "undefined"
    case Null => "null"
    case Bool(b) => if b then "true" else "false"
    case Num(n) => JsString.IntToString(n)
    case Str(s) => s
    case Arr(items) =>
      JsString.Join(seq(|items|, i requires 0 <= i < |items| =>
        if Nullish(items[i]) then "" else ToStr(items[i])), ',')
    case Obj(_) => "[object Object]"
  }
}
