/** JavaScript values as the handler sees them: what `JSON.parse` produces,
    plus `undefined`, which is what reading a missing property yields. */
module Js {

  datatype Option<+T> = None | Some(value: T)

  datatype Value =
    | Undefined
    | Null
    | Bool(b: bool)
    | Num(n: real)
    | Str(s: string)
    | Arr(elems: seq<Value>)
    | Obj(fields: map<string, Value>)

  /** The outcome of evaluating an expression that may raise a `TypeError`
      (reading a property of `null`/`undefined`, calling a non-function). */
  datatype Completion<+T> = Normal(value: T) | Throw

  /** JavaScript's ToBoolean on these values: `undefined`, `null`, `false`,
      `0` and `""` are falsy; every array and object, even an empty one, is truthy. */
  predicate Truthy(v: Value)
    ensures v.Arr? || v.Obj? ==> Truthy(v)
    ensures v.Str? ==> (Truthy(v) <==> |v.s| > 0)
    ensures Truthy(v) ==> !(v.Undefined? || v.Null?)
  {
    match v
    case Undefined => false
    case Null => false
    case Bool(b) => b
    case Num(n) => n != 0.0
    case Str(s) => s != ""
    case Arr(_) => true
    case Obj(_) => true
  }

  /** The values on which `?.` short-circuits and plain `.` throws. */
  predicate Nullish(v: Value)
    ensures Nullish(v) ==> !Truthy(v)
    ensures !Nullish(v) && !Truthy(v) ==> v.Bool? || v.Num? || v.Str?
  {
    v.Undefined? || v.Null?
  }

  /** `a || b`: the left operand if it is truthy, otherwise the right one. */
  function Or(a: Value, b: Value): (r: Value)
    ensures r == a || r == b
    ensures Truthy(r) <==> Truthy(a) || Truthy(b)
    ensures Truthy(a) ==> r == a
    ensures !Truthy(a) ==> r == b
  {
    if Truthy(a) then a else b
  }

  /** `v?.key` for an own property name: the member's value, or `undefined`
      when `v` is not an object or has no such member. The names the handler
      reads are neither `length`, nor an index, nor an inherited property of
      any JSON value, so non-objects yield `undefined` for all of them. */
  function Get(v: Value, key: string): (r: Value)
    ensures v.Obj? && key in v.fields ==> r == v.fields[key]
    ensures !(v.Obj? && key in v.fields) ==> r.Undefined?
  {
    if v.Obj? && key in v.fields then v.fields[key] else Undefined
  }

  /** `v?.[0]`: the first element of an array, the first character of a
      string, the member named "0" of an object, otherwise `undefined`. */
  function First(v: Value): (r: Value)
    ensures v.Arr? && |v.elems| > 0 ==> r == v.elems[0]
    ensures v.Str? ==> r == (if |v.s| > 0 then Str(v.s[..1]) else Undefined)
    ensures v.Obj? ==> r == Get(v, "0")
    ensures !(v.Arr? || v.Str? || v.Obj?) ==> r.Undefined?
  {
    match v
    case Arr(xs) => if |xs| > 0 then xs[0] else Undefined
    case Str(s) => if |s| > 0 then Str(s[..1]) else Undefined
    case Obj(_) => Get(v, "0")
    case _ => Undefined
  }

  /** `a || b || c` never yields `c` when `a` or `b` is truthy, and always
      yields a truthy value when `c` is truthy. */
  lemma OrChain(a: Value, b: Value, c: Value)
    ensures Truthy(c) ==> Truthy(Or(Or(a, b), c))
    ensures Truthy(a) ==> Or(Or(a, b), c) == a
    ensures !Truthy(a) && Truthy(b) ==> Or(Or(a, b), c) == b
    ensures !Truthy(a) && !Truthy(b) ==> Or(Or(a, b), c) == c
  {
  }
}
