/** What `Check` reports: the expected inputs of a Func compared with the inputs
    its calls actually received. */
module Verification {
  import opened Wrappers
  import opened Reflection
  import opened Errors

  /** The per-argument errors of call `i` over its first `n` arguments: one
      BadFuncArgValue for each argument that differs, in argument order. */
  function ValueMismatches(rt: Conversions, fname: string, i: nat, exp: seq<Value>, act: seq<Value>, n: nat): (r: seq<Error>)
    requires n <= |exp| <= |act|
    decreases n
  {
    if n == 0 then []
    else
      ValueMismatches(rt, fname, i, exp, act, n - 1)
      + (if rt.deepEqual(exp[n - 1], act[n - 1]) then [] else [BadFuncArgValue(fname, i, n - 1, exp[n - 1], act[n - 1])])
  }

  /** `r` reports only arguments among the first `n` that differ, each with the call
      index, its own index and both values, in increasing argument order. */
  predicate ValueErrors(rt: Conversions, fname: string, i: nat, exp: seq<Value>, act: seq<Value>, n: nat, r: seq<Error>)
    requires n <= |exp| <= |act|
  {
    && |r| <= n
    && (forall k :: 0 <= k < |r| ==>
          && r[k].BadFuncArgValue? && r[k].fname == fname && r[k].i == i && 0 <= r[k].j < n
          && r[k].wantValue == exp[r[k].j] && r[k].gotValue == act[r[k].j]
          && !rt.deepEqual(exp[r[k].j], act[r[k].j]))
    && (forall p, q :: 0 <= p < q < |r| ==> r[p].j < r[q].j)
  }

  /** Only arguments that differ are reported, in argument order. */
  lemma {:induction false} ValueMismatchesSound(rt: Conversions, fname: string, i: nat, exp: seq<Value>, act: seq<Value>, n: nat)
    requires n <= |exp| <= |act|
    ensures ValueErrors(rt, fname, i, exp, act, n, ValueMismatches(rt, fname, i, exp, act, n))
    decreases n
  {
    if n > 0 {
      ValueMismatchesSound(rt, fname, i, exp, act, n - 1);
    }
  }

  /** Every argument that differs is reported. */
  lemma {:induction false} ValueMismatchesComplete(rt: Conversions, fname: string, i: nat, exp: seq<Value>, act: seq<Value>, n: nat, j: nat)
    requires n <= |exp| <= |act| && j < n
    requires !rt.deepEqual(exp[j], act[j])
    ensures BadFuncArgValue(fname, i, j, exp[j], act[j]) in ValueMismatches(rt, fname, i, exp, act, n)
    decreases n
  {
    if j < n - 1 {
      ValueMismatchesComplete(rt, fname, i, exp, act, n - 1, j);
    }
  }

  /** `actual` has at least as many arguments at each position as an expected input
      there: `Check` would index past the end of an actual call otherwise. */
  predicate Comparable(expected: seq<Option<seq<Value>>>, actual: seq<seq<Value>>)
  {
    forall i :: 0 <= i < |expected| && i < |actual| && expected[i].Some? ==> |expected[i].value| <= |actual[i]|
  }

  /** `e` describes a real discrepancy between an expected input and its call: an
      argument count that differs, or an argument that is not deeply equal. */
  predicate IsMismatch(rt: Conversions, fname: string, expected: seq<Option<seq<Value>>>, actual: seq<seq<Value>>, e: Error)
    requires |expected| == |actual|
  {
    match e
    case BadFuncArgNum(f, i, want, got) =>
      f == fname && 0 <= i < |expected| && expected[i].Some?
      && want == |expected[i].value| && got == |actual[i]| && want != got
    case BadFuncArgValue(f, i, j, want, got) =>
      f == fname && 0 <= i < |expected| && expected[i].Some?
      && 0 <= j < |expected[i].value| && j < |actual[i]|
      && want == expected[i].value[j] && got == actual[i][j] && !rt.deepEqual(want, got)
    case _ => false
  }

  /** The order in which `Check` reports an error: by call, and within a call the arity
      error first, then the arguments in order. */
  function Position(e: Error): (int, int)
  {
    match e
    case BadFuncArgNum(_, i, _, _) => (i, -1)
    case BadFuncArgValue(_, i, j, _, _) => (i, j)
    case _ => (-1, -1)
  }

  predicate Precedes(a: Error, b: Error)
  {
    Position(a).0 < Position(b).0 || (Position(a).0 == Position(b).0 && Position(a).1 < Position(b).1)
  }

  predicate InOrder(errs: seq<Error>)
  {
    forall p, q :: 0 <= p < q < |errs| ==> Precedes(errs[p], errs[q])
  }

  /** The errors of call `i`: nothing when no input was expected; otherwise an arity
      error when the lengths differ, then the per-argument errors. */
  function CallMismatches(rt: Conversions, fname: string, expected: seq<Option<seq<Value>>>, actual: seq<seq<Value>>, i: nat): (r: seq<Error>)
    requires i < |expected| == |actual| && Comparable(expected, actual)
  {
    match expected[i]
    case None => []
    case Some(exp) =>
      var act := actual[i];
      (if |exp| != |act| then [BadFuncArgNum(fname, i, |exp|, |act|)] else [])
      + ValueMismatches(rt, fname, i, exp, act, |exp|)
  }

  /** The lists of `per`, one after another. */
  function Flatten(per: seq<seq<Error>>): (r: seq<Error>)
  {
    if per == [] then [] else Flatten(per[..|per| - 1]) + per[|per| - 1]
  }

  /** An error is in the flattened list exactly when it is in one of the lists. */
  lemma {:induction false} FlattenMember(per: seq<seq<Error>>, e: Error)
    ensures e in Flatten(per) <==> exists i :: 0 <= i < |per| && e in per[i]
    decreases |per|
  {
    if per != [] {
      var init, last := per[..|per| - 1], per[|per| - 1];
      FlattenMember(init, e);
      if e in Flatten(per) && e !in last {
        var i :| 0 <= i < |init| && e in init[i];
        assert per[i] == init[i];
      }
      if i :| 0 <= i < |per| && e in per[i] {
        if i < |per| - 1 {
          assert init[i] == per[i];
        }
      }
    }
  }

  /** When list `i` holds errors about call `i` only, each list in reporting order, the
      flattened list is in reporting order. */
  lemma {:induction false} FlattenOrdered(per: seq<seq<Error>>)
    requires forall i :: 0 <= i < |per| ==> CallRange(per[i], i, i + 1) && InOrder(per[i])
    ensures CallRange(Flatten(per), 0, |per|) && InOrder(Flatten(per))
    decreases |per|
  {
    if per != [] {
      var init := per[..|per| - 1];
      assert forall i :: 0 <= i < |init| ==> init[i] == per[i];
      FlattenOrdered(init);
      OrderedSnoc(Flatten(init), per[|per| - 1], |per| - 1);
    }
  }

  /** The errors of each call, by call index. */
  function PerCall(rt: Conversions, fname: string, expected: seq<Option<seq<Value>>>, actual: seq<seq<Value>>): (per: seq<seq<Error>>)
    requires |expected| == |actual| && Comparable(expected, actual)
    ensures |per| == |expected|
    ensures forall i :: 0 <= i < |per| ==> per[i] == CallMismatches(rt, fname, expected, actual, i)
  {
    seq(|expected|, i requires 0 <= i < |expected| => CallMismatches(rt, fname, expected, actual, i))
  }

  /** The errors of all calls, in call order. */
  function Mismatches(rt: Conversions, fname: string, expected: seq<Option<seq<Value>>>, actual: seq<seq<Value>>): (r: seq<Error>)
    requires |expected| == |actual| && Comparable(expected, actual)
  {
    Flatten(PerCall(rt, fname, expected, actual))
  }

  /** Each error of `r` is a real discrepancy of a call whose index is in [lo, hi). */
  predicate AllMismatches(rt: Conversions, fname: string, expected: seq<Option<seq<Value>>>, actual: seq<seq<Value>>,
                          r: seq<Error>, lo: nat, hi: nat)
    requires |expected| == |actual|
  {
    forall k :: 0 <= k < |r| ==> IsMismatch(rt, fname, expected, actual, r[k]) && lo <= r[k].i < hi
  }

  /** Every error of call `i` is a real discrepancy of that call. */
  lemma CallMismatchesSound(rt: Conversions, fname: string, expected: seq<Option<seq<Value>>>, actual: seq<seq<Value>>, i: nat)
    requires i < |expected| == |actual| && Comparable(expected, actual)
    ensures AllMismatches(rt, fname, expected, actual, CallMismatches(rt, fname, expected, actual, i), i, i + 1)
  {
    if expected[i].Some? {
      ValueMismatchesSound(rt, fname, i, expected[i].value, actual[i], |expected[i].value|);
    }
  }

  /** Every error of `r` is about an argument count or an argument value of a call whose
      index is in [lo, hi). */
  predicate CallRange(r: seq<Error>, lo: int, hi: int)
  {
    forall k :: 0 <= k < |r| ==> (r[k].BadFuncArgNum? || r[k].BadFuncArgValue?) && lo <= r[k].i < hi
  }

  /** The errors of call `i` are about call `i`, the arity error first and then the
      arguments in order. */
  lemma CallMismatchesOrdered(rt: Conversions, fname: string, expected: seq<Option<seq<Value>>>, actual: seq<seq<Value>>, i: nat)
    requires i < |expected| == |actual| && Comparable(expected, actual)
    ensures CallRange(CallMismatches(rt, fname, expected, actual, i), i, i + 1)
    ensures InOrder(CallMismatches(rt, fname, expected, actual, i))
  {
    if expected[i].Some? {
      ValueMismatchesSound(rt, fname, i, expected[i].value, actual[i], |expected[i].value|);
    }
  }

  /** Every reported error is a real discrepancy of one of the calls. */
  lemma MismatchesReal(rt: Conversions, fname: string, expected: seq<Option<seq<Value>>>, actual: seq<seq<Value>>)
    requires |expected| == |actual| && Comparable(expected, actual)
    ensures AllMismatches(rt, fname, expected, actual, Mismatches(rt, fname, expected, actual), 0, |expected|)
  {
    var per := PerCall(rt, fname, expected, actual);
    var r := Flatten(per);
    forall k | 0 <= k < |r|
      ensures IsMismatch(rt, fname, expected, actual, r[k]) && 0 <= r[k].i < |expected|
    {
      FlattenMember(per, r[k]);
      var i :| 0 <= i < |per| && r[k] in per[i];
      CallMismatchesSound(rt, fname, expected, actual, i);
    }
  }

  /** The errors are reported by call, and within a call the arity error first, then
      the arguments in order. */
  lemma MismatchesInOrder(rt: Conversions, fname: string, expected: seq<Option<seq<Value>>>, actual: seq<seq<Value>>)
    requires |expected| == |actual| && Comparable(expected, actual)
    ensures CallRange(Mismatches(rt, fname, expected, actual), 0, |expected|)
    ensures InOrder(Mismatches(rt, fname, expected, actual))
  {
    var per := PerCall(rt, fname, expected, actual);
    forall i | 0 <= i < |per|
      ensures CallRange(per[i], i, i + 1) && InOrder(per[i])
    {
      CallMismatchesOrdered(rt, fname, expected, actual, i);
    }
    FlattenOrdered(per);
  }

  /** Appending the errors of call `i` to those of earlier calls keeps the order. */
  lemma OrderedSnoc(before: seq<Error>, last: seq<Error>, i: nat)
    requires CallRange(before, 0, i) && CallRange(last, i, i + 1)
    requires InOrder(before) && InOrder(last)
    ensures CallRange(before + last, 0, i + 1)
    ensures InOrder(before + last)
  {
    var r := before + last;
    forall k | 0 <= k < |r|
      ensures (r[k].BadFuncArgNum? || r[k].BadFuncArgValue?) && 0 <= r[k].i < i + 1
    {
      if k < |before| {
        assert r[k] == before[k];
      } else {
        assert r[k] == last[k - |before|];
      }
    }
    forall p, q | 0 <= p < q < |r|
      ensures Precedes(r[p], r[q])
    {
      if q < |before| {
        assert r[p] == before[p] && r[q] == before[q];
      } else if p < |before| {
        assert r[p] == before[p] && r[q] == last[q - |before|];
      } else {
        assert r[p] == last[p - |before|] && r[q] == last[q - |before|];
      }
    }
  }

  /** A call whose argument count differs from its expected input's is reported. */
  lemma ArityReported(rt: Conversions, fname: string, expected: seq<Option<seq<Value>>>, actual: seq<seq<Value>>, i: nat)
    requires |expected| == |actual| && Comparable(expected, actual)
    requires i < |expected| && expected[i].Some? && |expected[i].value| != |actual[i]|
    ensures BadFuncArgNum(fname, i, |expected[i].value|, |actual[i]|) in Mismatches(rt, fname, expected, actual)
  {
    var per := PerCall(rt, fname, expected, actual);
    var e := BadFuncArgNum(fname, i, |expected[i].value|, |actual[i]|);
    assert per[i][0] == e;
    FlattenMember(per, e);
  }

  /** An argument that differs from its expected value is reported. */
  lemma ValueReported(rt: Conversions, fname: string, expected: seq<Option<seq<Value>>>, actual: seq<seq<Value>>, i: nat, j: nat)
    requires |expected| == |actual| && Comparable(expected, actual)
    requires i < |expected| && expected[i].Some? && j < |expected[i].value|
    requires !rt.deepEqual(expected[i].value[j], actual[i][j])
    ensures BadFuncArgValue(fname, i, j, expected[i].value[j], actual[i][j]) in Mismatches(rt, fname, expected, actual)
  {
    var per := PerCall(rt, fname, expected, actual);
    var exp, act := expected[i].value, actual[i];
    var e := BadFuncArgValue(fname, i, j, exp[j], act[j]);
    var arity := if |exp| != |act| then [BadFuncArgNum(fname, i, |exp|, |act|)] else [];
    var values := ValueMismatches(rt, fname, i, exp, act, |exp|);
    assert per[i] == arity + values;
    ValueMismatchesComplete(rt, fname, i, exp, act, |exp|, j);
    assert e in per[i];
    FlattenMember(per, e);
  }

  /** Every expected input matches its call: same number of arguments, each argument
      deeply equal. */
  ghost predicate AllMatch(rt: Conversions, expected: seq<Option<seq<Value>>>, actual: seq<seq<Value>>)
    requires |expected| == |actual|
  {
    forall i :: 0 <= i < |expected| && expected[i].Some? ==>
      && |expected[i].value| == |actual[i]|
      && forall j :: 0 <= j < |actual[i]| ==> rt.deepEqual(expected[i].value[j], actual[i][j])
  }

  /** A reported error witnesses a call that does not match. */
  lemma ReportedBreaksMatch(rt: Conversions, fname: string, expected: seq<Option<seq<Value>>>, actual: seq<seq<Value>>, e: Error)
    requires |expected| == |actual| && IsMismatch(rt, fname, expected, actual, e)
    ensures !AllMatch(rt, expected, actual)
  {
    if e.BadFuncArgValue? {
      assert !rt.deepEqual(expected[e.i].value[e.j], actual[e.i][e.j]);
    }
  }

  /** With no error reported, every call matches. */
  lemma NoneReportedAllMatch(rt: Conversions, fname: string, expected: seq<Option<seq<Value>>>, actual: seq<seq<Value>>)
    requires |expected| == |actual| && Comparable(expected, actual)
    requires Mismatches(rt, fname, expected, actual) == []
    ensures AllMatch(rt, expected, actual)
  {
    forall i | 0 <= i < |expected| && expected[i].Some?
      ensures |expected[i].value| == |actual[i]|
      ensures forall j :: 0 <= j < |actual[i]| ==> rt.deepEqual(expected[i].value[j], actual[i][j])
    {
      if |expected[i].value| != |actual[i]| {
        ArityReported(rt, fname, expected, actual, i);
      }
      forall j | 0 <= j < |actual[i]|
        ensures rt.deepEqual(expected[i].value[j], actual[i][j])
      {
        if !rt.deepEqual(expected[i].value[j], actual[i][j]) {
          ValueReported(rt, fname, expected, actual, i, j);
        }
      }
    }
  }

  /** No error is reported exactly when every expected input matches its call. */
  lemma MismatchesEmpty(rt: Conversions, fname: string, expected: seq<Option<seq<Value>>>, actual: seq<seq<Value>>)
    requires |expected| == |actual| && Comparable(expected, actual)
    ensures Mismatches(rt, fname, expected, actual) == [] <==> AllMatch(rt, expected, actual)
  {
    var r := Mismatches(rt, fname, expected, actual);
    if r == [] {
      NoneReportedAllMatch(rt, fname, expected, actual);
    } else {
      MismatchesReal(rt, fname, expected, actual);
      ReportedBreaksMatch(rt, fname, expected, actual, r[0]);
    }
  }

  /** What `Check` returns: `nil`, one error, or an ErrorList. */
  datatype Report = NoError | Single(err: Error) | Listed(errs: seq<Error>)

  /** `Check`: a call-count error alone when the number of calls differs from the
      number of expectations, otherwise the list of all mismatches, or no error. */
  function CheckReport(rt: Conversions, fname: string, expected: seq<Option<seq<Value>>>, actual: seq<seq<Value>>): (r: Report)
    requires |expected| == |actual| ==> Comparable(expected, actual)
    ensures |expected| != |actual| <==> r == Single(BadFuncCallNum(fname, |expected|, |actual|))
    ensures |expected| != |actual| || r.NoError? || r.Listed?
    ensures r.Listed? ==> r.errs != []
  {
    if |expected| != |actual| then Single(BadFuncCallNum(fname, |expected|, |actual|))
    else
      var errs := Mismatches(rt, fname, expected, actual);
      if errs == [] then NoError else Listed(errs)
  }

  /** `Check` passes exactly when there was one call per expectation and every
      expected input matches its call. */
  lemma CheckPassesIff(rt: Conversions, fname: string, expected: seq<Option<seq<Value>>>, actual: seq<seq<Value>>)
    requires |expected| == |actual| ==> Comparable(expected, actual)
    ensures CheckReport(rt, fname, expected, actual) == NoError <==>
      |expected| == |actual| && AllMatch(rt, expected, actual)
  {
    if |expected| == |actual| {
      MismatchesEmpty(rt, fname, expected, actual);
    }
  }

  /** Calls made with exactly the expected inputs pass when `DeepEqual` holds of each
      recorded argument and itself (Go's `DeepEqual` is not reflexive on every value: a
      non-nil func or a NaN is not deeply equal to itself), and so do calls at
      positions declared without an expected input, whatever they got. */
  lemma MatchingCallsPass(rt: Conversions, fname: string, expected: seq<Option<seq<Value>>>, actual: seq<seq<Value>>)
    requires |expected| == |actual|
    requires forall i, j :: 0 <= i < |actual| && 0 <= j < |actual[i]| ==> rt.deepEqual(actual[i][j], actual[i][j])
    requires forall i :: 0 <= i < |expected| && expected[i].Some? ==> expected[i].value == actual[i]
    ensures CheckReport(rt, fname, expected, actual) == NoError
  {
    CheckPassesIff(rt, fname, expected, actual);
  }
}
