/** The part of Go's `reflect` package that the mocking core relies on, reduced to
    abstract types and a record of given functions. */
module Reflection {

  /** A Go type, known only by its identity (`reflect.Type` values compare with `==`). */
  type Type(==)

  /** The data inside a typed value; never inspected by the core. */
  type Payload

  /** A `reflect.Value`: `Invalid` is the zero Value (what `reflect.ValueOf(nil)` gives),
      any other value carries its dynamic type. */
  datatype Value = Invalid | Valid(typ: Type, payload: Payload)

  /** The signature of the mocked function: `NumIn() == |ins|`, `In(i) == ins[i]`,
      `NumOut() == |outs|`, `Out(i) == outs[i]`. */
  datatype Signature = Signature(ins: seq<Type>, outs: seq<Type>)

  /** What the core asks of the reflection runtime, given rather than defined:
      `convertible(g, w)` is `g.ConvertibleTo(w)`, `convert` rewrites a payload of type
      `g` into type `w` (`Value.Convert`), `zero(t)` is the payload of
      `reflect.New(t).Elem()`, and `deepEqual` is `reflect.DeepEqual` on the values'
      `Interface()`. */
  datatype Conversions = Conversions(
    convertible: (Type, Type) -> bool,
    convert: (Payload, Type, Type) -> Payload,
    zero: Type -> Payload,
    deepEqual: (Value, Value) -> bool)

  /** The zero value of type `t`. */
  function Zero(rt: Conversions, t: Type): (v: Value)
    ensures v.Valid? && v.typ == t
  {
    Valid(t, rt.zero(t))
  }

  /** `v.Convert(w)` for a valid `v`. */
  function Convert(rt: Conversions, v: Value, w: Type): (r: Value)
    requires v.Valid?
    ensures r.Valid? && r.typ == w
  {
    Valid(w, rt.convert(v.payload, v.typ, w))
  }

  /** Every value of `vs` is valid and has exactly the type at its position in `ts`. */
  predicate WellTyped(vs: seq<Value>, ts: seq<Type>)
  {
    |vs| == |ts| && forall k :: 0 <= k < |vs| ==> vs[k].Valid? && vs[k].typ == ts[k]
  }
}
