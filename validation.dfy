/** Declaration-time validation of a CallArgs against the mocked function's
    signature: the arity of each specified side, then the coercion of each value to
    the declared type. */
module Validation {
  import opened Wrappers
  import opened Reflection
  import opened Errors

  /** One value checked against its target type: an invalid value becomes the zero
      value, a value of the target type stays, a value of a convertible type is
      converted, and anything else is refused (None). */
  function Coerce(rt: Conversions, v: Value, t: Type): (r: Option<Value>)
    ensures r.Some? ==> r.value.Valid? && r.value.typ == t
    ensures r.None? <==> v.Valid? && v.typ != t && !rt.convertible(v.typ, t)
    ensures v.Valid? && v.typ == t ==> r == Some(v)
    ensures v.Invalid? ==> r == Some(Zero(rt, t))
    ensures v.Valid? && v.typ != t && rt.convertible(v.typ, t) ==> r == Some(Convert(rt, v, t))
  {
    var w := if v.Invalid? then Zero(rt, t) else v;
    if w.typ == t then Some(w)
    else if rt.convertible(w.typ, t) then Some(Convert(rt, w, t))
    else None
  }

  /** The first index at or after `from` whose value cannot be coerced. */
  function FirstUncoercible(rt: Conversions, args: seq<Value>, types: seq<Type>, from: nat): (r: Option<nat>)
    requires |args| <= |types|
    ensures r.Some? ==> from <= r.value < |args| && Coerce(rt, args[r.value], types[r.value]).None?
    ensures r.Some? ==> forall k :: from <= k < r.value ==> Coerce(rt, args[k], types[k]).Some?
    ensures r.None? <==> forall k :: from <= k < |args| ==> Coerce(rt, args[k], types[k]).Some?
    decreases |args| - from
  {
    if from >= |args| then None
    else if Coerce(rt, args[from], types[from]).None? then Some(from)
    else FirstUncoercible(rt, args, types, from + 1)
  }

  /** `args` with the values before index `n` coerced and the others as they were. */
  function CoercedBefore(rt: Conversions, args: seq<Value>, types: seq<Type>, n: nat): (r: seq<Value>)
    requires |args| <= |types|
    ensures |r| == |args|
  {
    seq(|args|, k requires 0 <= k < |args| =>
      if k < n then Coerce(rt, args[k], types[k]).GetOr(args[k]) else args[k])
  }

  /** The values of a side after its check, and the error it produced. */
  datatype SideCheck = SideCheck(args: seq<Value>, err: Option<Error>)

  /** `validargtypes` on one side: walks the values in order, rewriting each in place,
      and stops at the first value that cannot be coerced. */
  function CheckSide(rt: Conversions, fname: string, args: seq<Value>, types: seq<Type>, out: bool): (c: SideCheck)
    requires |args| <= |types|
    ensures |c.args| == |args|
    ensures c.err.None? <==> forall k :: 0 <= k < |args| ==> Coerce(rt, args[k], types[k]).Some?
    ensures c.err.None? ==> forall k :: 0 <= k < |args| ==> c.args[k] == Coerce(rt, args[k], types[k]).value
    ensures c.err.None? ==> forall k :: 0 <= k < |args| ==> c.args[k].Valid? && c.args[k].typ == types[k]
    ensures c.err.Some? ==> c.err.value.BadCallArgsType? && 0 <= c.err.value.i < |args|
    ensures c.err.Some? && c.err.value.BadCallArgsType? && 0 <= c.err.value.i < |args| ==>
      var i := c.err.value.i;
      && args[i].Valid? && !rt.convertible(args[i].typ, types[i])
      && c.err.value == BadCallArgsType(fname, i, types[i], args[i].typ, out)
      && (forall k :: 0 <= k < i ==> Coerce(rt, args[k], types[k]).Some?
                                     && c.args[k] == Coerce(rt, args[k], types[k]).value)
      && c.args[i..] == args[i..]
  {
    match FirstUncoercible(rt, args, types, 0)
    case None => SideCheck(CoercedBefore(rt, args, types, |args|), None)
    case Some(i) =>
      SideCheck(CoercedBefore(rt, args, types, i), Some(BadCallArgsType(fname, i, types[i], args[i].typ, out)))
  }

  /** A side whose values already have their declared types passes unchanged, so a
      second check of checked values changes nothing. */
  lemma {:induction false} CheckSideWellTyped(rt: Conversions, fname: string, args: seq<Value>, types: seq<Type>, out: bool)
    requires WellTyped(args, types)
    ensures CheckSide(rt, fname, args, types, out) == SideCheck(args, None)
  {
    assert FirstUncoercible(rt, args, types, 0).None? by {
      forall k | 0 <= k < |args| ensures Coerce(rt, args[k], types[k]).Some? {
        assert args[k].Valid? && args[k].typ == types[k];
      }
    }
    var c := CoercedBefore(rt, args, types, |args|);
    forall k | 0 <= k < |args| ensures c[k] == args[k] {
      assert Coerce(rt, args[k], types[k]) == Some(args[k]);
    }
  }

  /** The arity part of `validargs`: the input side is checked before the output side,
      and a side that was not specified (nil) is not checked at all. */
  function ArityError(fname: string, sig: Signature, input: Option<seq<Value>>, output: Option<seq<Value>>): (r: Option<Error>)
    ensures r.None? <==>
      (input.Some? ==> |input.value| == |sig.ins|) && (output.Some? ==> |output.value| == |sig.outs|)
    ensures input.Some? && |input.value| != |sig.ins| ==>
      r == Some(BadCallArgsNum(fname, |sig.ins|, |input.value|, false))
    ensures (input.Some? ==> |input.value| == |sig.ins|) && output.Some? && |output.value| != |sig.outs| ==>
      r == Some(BadCallArgsNum(fname, |sig.outs|, |output.value|, true))
  {
    if input.Some? && |sig.ins| != |input.value| then Some(BadCallArgsNum(fname, |sig.ins|, |input.value|, false))
    else if output.Some? && |sig.outs| != |output.value| then Some(BadCallArgsNum(fname, |sig.outs|, |output.value|, true))
    else None
  }

  /** Both sides of a CallArgs after `validargs`, and its error. */
  datatype Validated = Validated(input: Option<seq<Value>>, output: Option<seq<Value>>, err: Option<Error>)

  /** A side after its type check: a nil side stays nil. */
  function CheckedSide(rt: Conversions, fname: string, side: Option<seq<Value>>, types: seq<Type>, out: bool): (r: Option<seq<Value>>)
    requires side.Some? ==> |side.value| <= |types|
  {
    if side.Some? then Some(CheckSide(rt, fname, side.value, types, out).args) else None
  }

  /** The whole of `validargs`: the arity checks, then the input values, then the
      output values. The values are rewritten even when a later value fails. A
      successful validation leaves each specified side well typed and an unspecified
      side unspecified; a failed one reports an arity or a type error. */
  function Validate(rt: Conversions, fname: string, sig: Signature, input: Option<seq<Value>>, output: Option<seq<Value>>): (v: Validated)
    ensures (v.input.Some? <==> input.Some?) && (v.output.Some? <==> output.Some?)
    ensures v.err.None? ==>
      && (v.input.Some? ==> WellTyped(v.input.value, sig.ins))
      && (v.output.Some? ==> WellTyped(v.output.value, sig.outs))
    ensures v.err.Some? ==> v.err.value.BadCallArgsNum? || v.err.value.BadCallArgsType?
  {
    var arity := ArityError(fname, sig, input, output);
    if arity.Some? then Validated(input, output, arity)
    else
      var ins := CheckSide(rt, fname, input.GetOr([]), sig.ins, false);
      var input' := CheckedSide(rt, fname, input, sig.ins, false);
      if ins.err.Some? then Validated(input', output, ins.err)
      else
        var outs := CheckSide(rt, fname, output.GetOr([]), sig.outs, true);
        Validated(input', CheckedSide(rt, fname, output, sig.outs, true), outs.err)
  }

  /** Validating what a successful validation produced succeeds and changes nothing. */
  lemma {:induction false} ValidateIdempotent(rt: Conversions, fname: string, sig: Signature, input: Option<seq<Value>>, output: Option<seq<Value>>)
    requires Validate(rt, fname, sig, input, output).err.None?
    ensures var v := Validate(rt, fname, sig, input, output);
      Validate(rt, fname, sig, v.input, v.output) == v
  {
    var v := Validate(rt, fname, sig, input, output);
    if v.input.Some? {
      CheckSideWellTyped(rt, fname, v.input.value, sig.ins, false);
    }
    if v.output.Some? {
      CheckSideWellTyped(rt, fname, v.output.value, sig.outs, true);
    }
  }
}
