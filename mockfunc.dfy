/** The mocking core: the registry of mocked function variables, the per-variable
    binding with its per-test Funcs, each Func's queue of expectations and fake
    outputs, and the proxy that every call of a mocked variable goes through. */
module MockFunc {
  import opened Wrappers
  import opened Reflection
  import opened Errors
  import opened TestContext
  import opened Validation
  import opened Verification

  // ---------------------------------------------------------------------------
  // Function variables

  /** What a variable of function type holds: a plain Go function, known by its
      name and its behaviour, or the proxy installed for a binding. */
  datatype FuncValue =
    | Plain(name: string, impl: seq<Value> -> seq<Value>)
    | Swap(proxy: Binding)

  /** A variable of function type, the thing `Mock` is given a pointer to; the
      object's identity stands for the variable's address. */
  class FuncVar {
    const sig: Signature
    var value: FuncValue

    constructor (sig: Signature, value: FuncValue)
      ensures this.sig == sig && this.value == value
    {
      this.sig := sig;
      this.value := value;
    }
  }

  /** Why no Func could be found, registered or removed for the running test. */
  datatype LookupError =
    | Unresolved                      // no test frame on the stack
    | NotRegistered(test: string)     // the test has no Func for this binding
    | AlreadyRegistered(test: string) // the test already has one

  // ---------------------------------------------------------------------------
  // CallArgs

  /** A CallArgs side after `vs` is appended to it: appending nothing leaves a nil
      side nil. */
  function Appended(side: Option<seq<Value>>, vs: seq<Value>): (r: Option<seq<Value>>)
  {
    if vs == [] then side else Some(side.GetOr([]) + vs)
  }

  lemma AppendedSnoc(side: Option<seq<Value>>, vs: seq<Value>, x: Value)
    ensures Appended(side, vs + [x]) == Some(Appended(side, vs).GetOr([]) + [x])
  {
    if vs == [] {
      assert vs + [x] == [x];
    } else {
      assert side.GetOr([]) + (vs + [x]) == side.GetOr([]) + vs + [x];
    }
  }

  lemma AppendedNone(vs: seq<Value>)
    ensures Appended(None, vs) == if vs == [] then None else Some(vs)
  {
    if vs != [] {
      assert [] + vs == vs;
    }
  }

  /** The expected input and the fake output of one call; a side is None (nil) when
      it was not specified. */
  class CallArgs {
    var input: Option<seq<Value>>
    var output: Option<seq<Value>>

    constructor ()
      ensures input == None && output == None
    {
      input, output := None, None;
    }

    /** Appends `vs` to the fake output. */
    method Out(vs: seq<Value>)
      modifies this
      ensures input == old(input)
      ensures output == Appended(old(output), vs)
    {
      var i := 0;
      while i < |vs|
        invariant 0 <= i <= |vs|
        invariant input == old(input)
        invariant output == Appended(old(output), vs[..i])
      {
        assert vs[..i + 1] == vs[..i] + [vs[i]];
        AppendedSnoc(old(output), vs[..i], vs[i]);
        output := Some(output.GetOr([]) + [vs[i]]);
        i := i + 1;
      }
      assert vs[..i] == vs;
    }
  }

  /** A new CallArgs with `vs` as its expected input; `In()` with no values leaves the
      input nil, which means "do not check the input". */
  method In(vs: seq<Value>) returns (fc: CallArgs)
    ensures fresh(fc)
    ensures fc.input == (if vs == [] then None else Some(vs))
    ensures fc.output == None
  {
    fc := new CallArgs();
    var i := 0;
    while i < |vs|
      invariant 0 <= i <= |vs|
      invariant fc.input == Appended(None, vs[..i]) && fc.output == None
    {
      assert vs[..i + 1] == vs[..i] + [vs[i]];
      AppendedSnoc(None, vs[..i], vs[i]);
      fc.input := Some(fc.input.GetOr([]) + [vs[i]]);
      i := i + 1;
    }
    assert vs[..i] == vs;
    AppendedNone(vs);
  }

  /** A new CallArgs with `vs` as its fake output and no expected input. */
  method Out(vs: seq<Value>) returns (fc: CallArgs)
    ensures fresh(fc)
    ensures fc.input == None
    ensures fc.output == (if vs == [] then None else Some(vs))
  {
    fc := new CallArgs();
    fc.Out(vs);
    AppendedNone(vs);
  }

  // ---------------------------------------------------------------------------
  // Func: one test's expectations for one binding

  /** Every specified side of a queue has the types `ts`. */
  predicate SidesTyped(sides: seq<Option<seq<Value>>>, ts: seq<Type>)
  {
    forall i :: 0 <= i < |sides| && sides[i].Some? ==> WellTyped(sides[i].value, ts)
  }

  /** Every recorded call has the types `ts`. */
  predicate CallsTyped(calls: seq<seq<Value>>, ts: seq<Type>)
  {
    forall i :: 0 <= i < |calls| ==> WellTyped(calls[i], ts)
  }

  /** Expectations and calls typed alike can be compared position by position. */
  lemma TypedComparable(expected: seq<Option<seq<Value>>>, actual: seq<seq<Value>>, ts: seq<Type>)
    requires SidesTyped(expected, ts) && CallsTyped(actual, ts)
    ensures Comparable(expected, actual)
  {
  }

  class Func {
    const binding: Binding
    var num: nat
    var fakeout: seq<Option<seq<Value>>>
    var expected: seq<Option<seq<Value>>>
    var actual: seq<seq<Value>>

    /** One fake output per expectation; the cursor counts the calls made; every
        declared side has passed validation and every call had the function's
        parameter types. */
    ghost predicate Valid()
      reads this
    {
      && |expected| == |fakeout|
      && num == |actual|
      && SidesTyped(expected, binding.sig.ins)
      && SidesTyped(fakeout, binding.sig.outs)
      && CallsTyped(actual, binding.sig.ins)
    }

    constructor (b: Binding)
      ensures binding == b && Valid()
      ensures num == 0 && fakeout == [] && expected == [] && actual == []
    {
      binding := b;
      num, fakeout, expected, actual := 0, [], [], [];
    }

    /** `validargtypes`: coerces the values of one side in place, position by position,
        and stops at the first value that cannot be converted. */
    method ValidArgTypes(rt: Conversions, args: seq<Value>, types: seq<Type>, out: bool)
      returns (coerced: seq<Value>, err: Option<Error>)
      requires |args| <= |types|
      ensures SideCheck(coerced, err) == CheckSide(rt, binding.name, args, types, out)
    {
      coerced := args;
      var i := 0;
      while i < |coerced|
        invariant 0 <= i <= |args| == |coerced|
        invariant coerced == CoercedBefore(rt, args, types, i)
        invariant forall k :: 0 <= k < i ==> Coerce(rt, args[k], types[k]).Some?
      {
        var typ := types[i];
        var v := coerced[i];
        if v.Invalid? {
          v := Zero(rt, typ);
          coerced := coerced[i := v];
        }
        if v.typ != typ {
          if !rt.convertible(v.typ, typ) {
            return coerced, Some(BadCallArgsType(binding.name, i, typ, v.typ, out));
          }
          v := Convert(rt, v, typ);
          coerced := coerced[i := v];
        }
        i := i + 1;
      }
      err := None;
    }

    /** `validargs`: the arity of each specified side, input first, then the types of
        the input values, then those of the output values; the values of `fc` are
        rewritten in place. */
    method ValidArgs(rt: Conversions, fc: CallArgs) returns (err: Option<Error>)
      modifies fc
      ensures var v := Validate(rt, binding.name, binding.sig, old(fc.input), old(fc.output));
        fc.input == v.input && fc.output == v.output && err == v.err
    {
      var sig := binding.sig;
      if fc.input.Some? && |sig.ins| != |fc.input.value| {
        return Some(BadCallArgsNum(binding.name, |sig.ins|, |fc.input.value|, false));
      }
      if fc.output.Some? && |sig.outs| != |fc.output.value| {
        return Some(BadCallArgsNum(binding.name, |sig.outs|, |fc.output.value|, true));
      }
      var ins, inErr := ValidArgTypes(rt, fc.input.GetOr([]), sig.ins, false);
      if fc.input.Some? {
        fc.input := Some(ins);
      }
      if inErr.Some? {
        return inErr;
      }
      var outs, outErr := ValidArgTypes(rt, fc.output.GetOr([]), sig.outs, true);
      if fc.output.Some? {
        fc.output := Some(outs);
      }
      return outErr;
    }

    /** `Want`: validates `fc` and, when it is valid, appends its input to the expected
        inputs and its output to the fake outputs; an invalid `fc` queues nothing. */
    method Want(rt: Conversions, fc: CallArgs) returns (err: Option<Error>)
      requires Valid()
      modifies this, fc
      ensures Valid()
      ensures var v := Validate(rt, binding.name, binding.sig, old(fc.input), old(fc.output));
        && err == v.err && fc.input == v.input && fc.output == v.output
        && (err.None? ==> expected == old(expected) + [v.input] && fakeout == old(fakeout) + [v.output])
        && (err.Some? ==> expected == old(expected) && fakeout == old(fakeout))
      ensures num == old(num) && actual == old(actual)
    {
      err := ValidArgs(rt, fc);
      if err.Some? {
        return;
      }
      expected := expected + [fc.input];
      fakeout := fakeout + [fc.output];
    }

    /** `nextout`: the fake output queued for the call the cursor is at, if any; the
        cursor advances either way. */
    method NextOut() returns (out: Option<seq<Value>>)
      modifies this
      ensures out == if old(num) < |fakeout| then fakeout[old(num)] else None
      ensures num == old(num) + 1
      ensures fakeout == old(fakeout) && expected == old(expected) && actual == old(actual)
    {
      if |fakeout| > num {
        out := fakeout[num];
      } else {
        out := None;
      }
      num := num + 1;
    }

    /** `reset`: back to the state of a new Func. */
    method Reset()
      modifies this
      ensures num == 0 && fakeout == [] && expected == [] && actual == []
    {
      num, fakeout, expected, actual := 0, [], [], [];
    }

    /** `Check`: compares the expected inputs with the actual ones, collecting every
        mismatch, and then resets the Func whatever the outcome. */
    method Check(rt: Conversions) returns (report: Report)
      requires Valid()
      modifies this
      ensures report == CheckReport(rt, binding.name, old(expected), old(actual))
      ensures Valid() && num == 0 && fakeout == [] && expected == [] && actual == []
    {
      var exps, acts, fname := expected, actual, binding.name;
      if |exps| != |acts| {
        report := Single(BadFuncCallNum(fname, |exps|, |acts|));
        Reset();
        return;
      }
      TypedComparable(exps, acts, binding.sig.ins);
      var errlist := CollectMismatches(rt, fname, exps, acts);
      if errlist.Len() > 0 {
        report := Listed(errlist.list);
      } else {
        report := NoError;
      }
      Reset();
    }

    /** `Done`: removes the running test's Func from the binding; when no test is left
        it restores the original function into the variable and drops the binding
        from the registry. */
    method Done(reg: Registry, stack: seq<Frame>) returns (err: Option<LookupError>)
      requires reg.Valid() && binding.Valid()
      modifies binding, binding.addr, reg
      ensures reg.Valid() && binding.Valid()
      ensures var test := OutermostTest(stack);
        && (test.None? ==>
              && err == Some(Unresolved) && binding.funcs == old(binding.funcs)
              && binding.addr.value == old(binding.addr.value) && reg.m == old(reg.m))
        && (test.Some? ==> err == None && binding.funcs == old(binding.funcs) - {test.value})
      ensures err.None? && binding.funcs == map[] ==>
        binding.addr.value == Plain(binding.name, binding.orig) && reg.m == old(reg.m) - {binding.addr}
      ensures err.None? && binding.funcs != map[] ==>
        binding.addr.value == old(binding.addr.value) && reg.m == old(reg.m)
    {
      err := binding.DelFunc(stack);
      if err.Some? {
        return;
      }
      if binding.NumFunc() == 0 {
        reg.Restore(binding);
      }
    }
  }

  /** The loop of `Check`: every mismatch of every call, in call order. */
  method CollectMismatches(rt: Conversions, fname: string, exps: seq<Option<seq<Value>>>, acts: seq<seq<Value>>)
    returns (errlist: ErrorList)
    requires |exps| == |acts| && Comparable(exps, acts)
    ensures fresh(errlist)
    ensures errlist.list == Mismatches(rt, fname, exps, acts)
  {
    errlist := new ErrorList();
    ghost var per := PerCall(rt, fname, exps, acts);
    var i := 0;
    while i < |exps|
      invariant 0 <= i <= |exps|
      invariant errlist.list == Flatten(per[..i])
    {
      AddCallMismatches(rt, fname, exps, acts, i, errlist);
      assert per[..i + 1][..i] == per[..i];
      i := i + 1;
    }
    assert per[..|exps|] == per;
  }

  /** The body of `Check`'s outer loop: appends the mismatches of call `i` to
      `errlist`, the arity error first and then each differing argument. */
  method AddCallMismatches(rt: Conversions, fname: string, exps: seq<Option<seq<Value>>>,
                           acts: seq<seq<Value>>, i: nat, errlist: ErrorList)
    requires i < |exps| == |acts| && Comparable(exps, acts)
    modifies errlist
    ensures errlist.list == old(errlist.list) + CallMismatches(rt, fname, exps, acts, i)
  {
    CallMismatchesParts(rt, fname, exps, acts, i);
    if exps[i].None? {
      return;
    }
    var exp, act := exps[i].value, acts[i];
    ghost var arity := if |exp| != |act| then [BadFuncArgNum(fname, i, |exp|, |act|)] else [];
    if |exp| != |act| {
      errlist.Add([BadFuncArgNum(fname, i, |exp|, |act|)]);
    }
    AddValueMismatches(rt, fname, i, exp, act, errlist);
    assert old(errlist.list) + arity + ValueMismatches(rt, fname, i, exp, act, |exp|)
      == old(errlist.list) + (arity + ValueMismatches(rt, fname, i, exp, act, |exp|));
  }

  /** The definition of `CallMismatches`, unfolded once: the arity error, then the
      value errors. It states no property of its own; it keeps the solver from
      unfolding the definition inside `AddCallMismatches`, which is cheaper. */
  lemma CallMismatchesParts(rt: Conversions, fname: string, exps: seq<Option<seq<Value>>>, acts: seq<seq<Value>>, i: nat)
    requires i < |exps| == |acts| && Comparable(exps, acts)
    ensures exps[i].None? ==> CallMismatches(rt, fname, exps, acts, i) == []
    ensures exps[i].Some? ==>
      var exp, act := exps[i].value, acts[i];
      CallMismatches(rt, fname, exps, acts, i)
        == (if |exp| != |act| then [BadFuncArgNum(fname, i, |exp|, |act|)] else [])
           + ValueMismatches(rt, fname, i, exp, act, |exp|)
  {
  }

  /** The inner loop of `Check`: appends one error per argument of call `i` that
      differs from its expected value. */
  method AddValueMismatches(rt: Conversions, fname: string, i: nat, exp: seq<Value>, act: seq<Value>,
                            errlist: ErrorList)
    requires |exp| <= |act|
    modifies errlist
    ensures errlist.list == old(errlist.list) + ValueMismatches(rt, fname, i, exp, act, |exp|)
  {
    var j := 0;
    while j < |exp|
      invariant 0 <= j <= |exp|
      invariant errlist.list == old(errlist.list) + ValueMismatches(rt, fname, i, exp, act, j)
    {
      if !rt.deepEqual(exp[j], act[j]) {
        errlist.Add([BadFuncArgValue(fname, i, j, exp[j], act[j])]);
      }
      j := j + 1;
    }
  }

  // ---------------------------------------------------------------------------
  // Binding: the `mock` record of one mocked variable

  class Binding {
    const name: string
    const orig: seq<Value> -> seq<Value>
    const sig: Signature
    const addr: FuncVar
    var funcs: map<string, Func>

    /** Every Func registered here belongs to this binding, is valid, and is
        registered under one test name only. */
    ghost predicate Valid()
      reads this, funcs.Values
    {
      && (forall t :: t in funcs ==> funcs[t].binding == this && funcs[t].Valid())
      && (forall t, u :: t in funcs && u in funcs && t != u ==> funcs[t] != funcs[u])
    }

    constructor (name: string, orig: seq<Value> -> seq<Value>, sig: Signature, addr: FuncVar)
      ensures this.name == name && this.orig == orig && this.sig == sig && this.addr == addr
      ensures funcs == map[] && Valid()
    {
      this.name, this.orig, this.sig, this.addr := name, orig, sig, addr;
      funcs := map[];
    }

    /** `numFunc`: the number of tests with a Func here. */
    function NumFunc(): (n: nat)
      reads this
      ensures n == 0 <==> funcs == map[]
    {
      |funcs|
    }

    /** `getFunc`: the running test's Func. */
    method GetFunc(stack: seq<Frame>) returns (r: Result<Func, LookupError>)
      ensures var test := OutermostTest(stack);
        && (test.None? ==> r == Failure(Unresolved))
        && (test.Some? && test.value !in funcs ==> r == Failure(NotRegistered(test.value)))
        && (test.Some? && test.value in funcs ==> r == Success(funcs[test.value]))
    {
      var test := TestName(stack);
      if test.None? {
        return Failure(Unresolved);
      }
      if test.value !in funcs {
        return Failure(NotRegistered(test.value));
      }
      return Success(funcs[test.value]);
    }

    /** `setFunc`: registers `f` for the running test, refusing a test that already
        has a Func here. */
    method SetFunc(f: Func, stack: seq<Frame>) returns (err: Option<LookupError>)
      requires Valid() && f.binding == this && f.Valid() && f !in funcs.Values
      modifies this
      ensures Valid()
      ensures var test := OutermostTest(stack);
        && (test.None? ==> err == Some(Unresolved) && funcs == old(funcs))
        && (test.Some? && test.value in old(funcs) ==>
              err == Some(AlreadyRegistered(test.value)) && funcs == old(funcs))
        && (test.Some? && test.value !in old(funcs) ==> err == None && funcs == old(funcs)[test.value := f])
    {
      var test := TestName(stack);
      if test.None? {
        return Some(Unresolved);
      }
      if test.value in funcs {
        return Some(AlreadyRegistered(test.value));
      }
      funcs := funcs[test.value := f];
      return None;
    }

    /** The part of `Mock` after the binding is found: a new, empty Func registered
        for the running test. */
    method NewFunc(stack: seq<Frame>) returns (r: Result<Func, LookupError>)
      requires Valid()
      modifies this
      ensures Valid()
      ensures var test := OutermostTest(stack);
        && (test.None? ==> r == Failure(Unresolved) && funcs == old(funcs))
        && (test.Some? && test.value in old(funcs) ==>
              r == Failure(AlreadyRegistered(test.value)) && funcs == old(funcs))
        && (test.Some? && test.value !in old(funcs) ==>
              && r.Success? && fresh(r.value) && r.value.binding == this
              && funcs == old(funcs)[test.value := r.value]
              && r.value.num == 0 && r.value.expected == [] && r.value.fakeout == [] && r.value.actual == [])
    {
      var f := new Func(this);
      var err := SetFunc(f, stack);
      if err.Some? {
        return Failure(err.value);
      }
      return Success(f);
    }

    /** `delFunc`: removes the running test's Func, if it has one. */
    method DelFunc(stack: seq<Frame>) returns (err: Option<LookupError>)
      requires Valid()
      modifies this
      ensures Valid()
      ensures var test := OutermostTest(stack);
        && (test.None? ==> err == Some(Unresolved) && funcs == old(funcs))
        && (test.Some? ==> err == None && funcs == old(funcs) - {test.value})
    {
      var test := TestName(stack);
      if test.None? {
        return Some(Unresolved);
      }
      funcs := funcs - {test.value};
      return None;
    }

    /** `call`, the proxy: a call from a test with a Func here is logged, and answered
        with the next fake output when there is a non-empty one, otherwise by the
        original function; any other call only goes to the original function. */
    method Call(args: seq<Value>, stack: seq<Frame>) returns (result: seq<Value>)
      requires Valid() && WellTyped(args, sig.ins)
      modifies funcs.Values
      ensures Valid()
      ensures var test := OutermostTest(stack);
        test.None? || test.value !in funcs ==>
          result == orig(args) && forall t :: t in funcs ==> unchanged(funcs[t])
      ensures var test := OutermostTest(stack);
        test.Some? && test.value in funcs ==>
          var f := funcs[test.value];
          var k := |old(f.actual)|;
          var out := if k < |f.fakeout| then f.fakeout[k] else None;
          && f.actual == old(f.actual) + [args] && f.num == old(f.num) + 1
          && f.expected == old(f.expected) && f.fakeout == old(f.fakeout)
          && result == (if out.Some? && |out.value| > 0 then out.value else orig(args))
          && forall t :: t in funcs && t != test.value ==> unchanged(funcs[t])
    {
      var r := GetFunc(stack);
      if r.Failure? {
        return orig(args);
      }
      var f := r.value;
      f.actual := f.actual + [args];
      var out := f.NextOut();
      if out.Some? && |out.value| > 0 {
        return out.value;
      }
      return orig(args);
    }
  }

  // ---------------------------------------------------------------------------
  // The registry of mocked variables

  class Registry {
    var m: map<FuncVar, Binding>

    /** Each registered variable holds the proxy of its own binding. */
    ghost predicate Valid()
      reads this, m.Keys
    {
      forall v :: v in m ==> m[v].addr == v && m[v].sig == v.sig && v.value == Swap(m[v])
    }

    constructor ()
      ensures m == map[] && Valid()
    {
      m := map[];
    }

    /** `getmock`: the binding of `v`, created on first use, which records the
        variable's function and installs the proxy in its place; later uses return
        the same binding and change nothing. */
    method GetMock(v: FuncVar) returns (b: Binding)
      requires Valid()
      requires v !in m ==> v.value.Plain?
      modifies this, v
      ensures Valid() && v in m && m[v] == b
      ensures old(v in m) ==> b == old(m[v]) && m == old(m) && v.value == old(v.value)
      ensures old(v !in m) ==>
        && fresh(b) && m == old(m)[v := b] && v.value == Swap(b)
        && b.name == old(v.value.name) && b.orig == old(v.value.impl)
        && b.sig == v.sig && b.addr == v && b.funcs == map[]
    {
      if v in m {
        return m[v];
      }
      b := new Binding(v.value.name, v.value.impl, v.sig, v);
      v.value := Swap(b);
      m := m[v := b];
    }

    /** The last step of `Done`: the variable gets its original function back and the
        binding is forgotten. */
    method Restore(b: Binding)
      requires Valid()
      modifies this, b.addr
      ensures Valid()
      ensures b.addr.value == Plain(b.name, b.orig) && m == old(m) - {b.addr}
    {
      b.addr.value := Plain(b.name, b.orig);
      DelMock(b.addr);
    }

    /** `delmock`: forgets the binding of `v`. */
    method DelMock(v: FuncVar)
      modifies this
      ensures m == old(m) - {v}
    {
      m := m - {v};
    }
  }

  /** `Mock`: binds `v` (once for all tests) and registers a new, empty Func for the
      running test; the Go code panics where this returns a failure. Only the binding
      of `v` changes: the bindings of other variables keep their Funcs. */
  method Mock(reg: Registry, v: FuncVar, stack: seq<Frame>) returns (r: Result<Func, LookupError>)
    requires reg.Valid()
    requires v !in reg.m ==> v.value.Plain?
    requires v in reg.m ==> reg.m[v].Valid()
    modifies reg, v, if v in reg.m then {reg.m[v]} else {}
    ensures reg.Valid() && v in reg.m && reg.m[v].Valid()
    ensures forall w :: w in old(reg.m) ==> w in reg.m && reg.m[w] == old(reg.m[w])
    ensures reg.m.Keys == old(reg.m.Keys) + {v}
    ensures forall w :: w in old(reg.m) && w != v ==> reg.m[w].funcs == old(reg.m[w].funcs)
    ensures old(v !in reg.m) ==> v.value == Swap(reg.m[v]) && reg.m[v].name == old(v.value.name) && reg.m[v].orig == old(v.value.impl)
    ensures var test := OutermostTest(stack);
      var b := reg.m[v];
      var before := if old(v in reg.m) then old(reg.m[v].funcs) else map[];
      && (test.None? ==> r == Failure(Unresolved) && b.funcs == before)
      && (test.Some? && test.value in before ==> r == Failure(AlreadyRegistered(test.value)) && b.funcs == before)
      && (test.Some? && test.value !in before ==>
            && r.Success? && fresh(r.value) && r.value.binding == b && b.funcs == before[test.value := r.value]
            && r.value.num == 0 && r.value.expected == [] && r.value.fakeout == [] && r.value.actual == [])
  {
    var b := reg.GetMock(v);
    r := b.NewFunc(stack);
  }

  /** Mocking a variable that no test mocks yet and releasing it again, with no call
      in between, leaves the variable holding its original function, the registry as
      it was, and the bindings of the other variables untouched. */
  method MockThenDone(reg: Registry, v: FuncVar, stack: seq<Frame>)
    requires reg.Valid() && v !in reg.m && v.value.Plain?
    requires OutermostTest(stack).Some?
    modifies reg, v
    ensures v.value == old(v.value) && reg.m == old(reg.m) && reg.Valid()
    ensures forall w :: w in reg.m ==> reg.m[w].funcs == old(reg.m[w].funcs)
  {
    var r := Mock(reg, v, stack);
    var f := r.value;
    var err := f.Done(reg, stack);
  }
}
