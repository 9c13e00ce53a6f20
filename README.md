# mockfunc, modelled in Dafny

`mockfunc` lets a Go test replace a package-level function variable with a
proxy. The test then declares the inputs it expects and the fake outputs the
proxy should return, runs the code under test, and compares the recorded calls
with the expectations. This project models that core and proves properties of
it:

- the registry of mocked variables;
- the per-variable binding and its per-test `Func` queues;
- declaration-time validation of `CallArgs`;
- the call proxy;
- `Check` and its error list;
- the resolution of the running test from the call stack.

Modules, one per concern:

- `Wrappers`: `Option` and `Result`.
- `Reflection`: what the model assumes of Go reflection.
  - Types and payloads are abstract.
  - A value is `Invalid` (the zero `reflect.Value`) or a typed payload.
  - Convertibility, conversion, zero values and `DeepEqual` are the fields of a `Conversions` record, passed as a parameter.
- `Errors`: the structured error records.
  - One datatype `Error` with a constructor per Go error struct (errors.go:21-104), carrying the function name, the counts, the call and argument indices, the types or values, and the out flag.
  - The `In`/`Out` label of the `CallArgs` errors.
  - The decimal rendering of an index, with its parse round trip.
  - `ErrorList` as a class with `Add`, `Len` and `Text` (the Go `Error` method, renamed so that it does not clash with the `Error` datatype).
  - The line-by-line rendering that `Text` is proved against.
- `TestContext`: test-name resolution.
  - The call stack is an input, a sequence of (file, function name) frames.
  - The two regular expressions become string predicates, each proved equivalent to its pattern.
  - `collectcallers`, the in-place array `reverse` and `testname` are loops.
    - `collectcallers` is proved to return the whole stack.
    - `reverse` is proved element by element against the array's old contents.
    - `testname` is proved against the specification function `OutermostTest`.
- `Validation`: `validargs`/`validargtypes` as specification functions.
  - Coercion of one value.
  - Coercion of one side.
  - The arity check.
  - The combined result.
- `Verification`: what `Check` reports, as specification functions.
  - The reported errors are sound, complete and in (call, argument) order.
  - The report is empty exactly when every expected input matches its call.
- `MockFunc`: the imperative core, as classes.
  - `FuncVar`, a function variable; its object identity is its address.
  - `CallArgs`.
  - `Func`, one test's queue.
  - `Binding`, the Go `mock` record.
  - `Registry`.
  - The top-level `In`, `Out` and `Mock`.

## Model

| member | source | states |
|---|---|---|
| Reflection.Zero | mockfunc.go:252-255 | the zero value of a type is a valid value of exactly that type |
| Reflection.Convert | mockfunc.go:266-267 | converting a valid value to a type yields a valid value of that type |
| Errors.CallLabel | errors.go:27-31 | a CallArgs error is labelled "Out" exactly when its out flag is set, and "In" exactly when it is not |
| Errors.Decimal | errors.go:117 | the `%d` rendering of an entry index; characterised by DecimalRoundTrip |
| Errors.DecimalRoundTrip | errors.go:117 | the decimal rendering of an entry index is a non-empty string of digits, without a leading zero unless the index is 0, that parses back to the index |
| Errors.Line | errors.go:117 | the line of entry i: "#", the decimal index, ": ", the entry's text and a newline |
| Errors.LinesFrom | errors.go:116-118 | the lines of the entries in list order, numbered from a given index; characterised by LinesFromSnoc and LinesFromAppend |
| Errors.Rendered | errors.go:114-120 | the specification of `Error`: the list's "#i: text\n" lines numbered from 0; characterised by LinesFromSnoc, LinesFromAppend and RenderedEmpty |
| Errors.LinesFromSnoc | errors.go:114-120 | adding one entry at the end adds exactly one line at the end, numbered with that entry's index |
| Errors.LinesFromAppend | errors.go:114-120 | rendering two lists one after the other equals rendering their concatenation, with the second list's numbering continuing from the first |
| Errors.RenderedEmpty | errors.go:114-120 | the rendered text is empty exactly when the list is empty |
| Errors.ErrorList.Len | errors.go:110-112 | the length is the number of errors held |
| Errors.ErrorList.Add | errors.go:122-124 | the given errors are appended after the existing ones, in argument order, and the length grows by their number |
| Errors.ErrorList.constructor | mockfunc.go:175 | a new error list is empty |
| Errors.ErrorList.Text | errors.go:114-120 | the text is one "#i: entry\n" line per entry, in list order |
| TestContext.IsTestFile | mockfunc.go:362 | a file name is a test file name when it ends in "_test.go" |
| TestContext.IsTestFileMatchesPattern | mockfunc.go:362 | the file predicate holds exactly when the name is some string followed by "_test.go", which is what `_test\.go$` matches |
| TestContext.IsTestFuncName | mockfunc.go:361 | decides the test-function pattern from the last character that is not a letter, digit or underscore: it must be a '.' followed by "Test" |
| TestContext.IsTestFuncNameMatchesPattern | mockfunc.go:361 | the string predicate holds exactly when the name has a ".Test" followed only by letters, digits and underscores up to the end |
| TestContext.IsTestFrame | mockfunc.go:366-369 | a frame is a test frame exactly when its file is a test file and its function name is a test function name |
| TestContext.TestFrameHasName | mockfunc.go:335-338 | a test frame has a non-empty function name, so finding one stops the search |
| TestContext.OutermostTest | mockfunc.go:330-346 | the specification of `testname`: the name of the test frame closest to the root, or none; characterised by the three lemmas below |
| TestContext.OutermostTestFound | mockfunc.go:330-346 | a test name is found only when some frame is a test frame, and it is then the name of the test frame closest to the root |
| TestContext.OutermostTestAt | mockfunc.go:333-341 | the test frame closest to the root of the stack determines the name |
| TestContext.NoTestFrameUnresolved | mockfunc.go:342-344 | a stack without a test frame resolves to no test |
| TestContext.CallersWindow | mockfunc.go:351-352 | a window of the stack holds at most its size and stays within the stack |
| TestContext.CollectCallers | mockfunc.go:349-359 | gathering the stack in windows of 10 until a short window yields the whole stack, in order |
| TestContext.Reverse | mockfunc.go:373-379 | after the in-place reversal, element k is the old element n-1-k |
| TestContext.CallersRootFirst | mockfunc.go:331 | the reversed callers list the stack from the root to the innermost frame |
| TestContext.TestName | mockfunc.go:330-346 | the resolved name is the function name of the outermost test frame, and resolution fails exactly when there is no test frame |
| Validation.Coerce | mockfunc.go:250-268 | an invalid value becomes the zero value of its type; a value of the right type is kept; a valid value of another, convertible type becomes its conversion; only a valid, wrongly typed, non-convertible value is refused; any result has the target type |
| Validation.FirstUncoercible | mockfunc.go:250-265 | finds the first position whose value cannot be coerced, or none when every position can |
| Validation.CheckSide | mockfunc.go:249-271 | a side passes exactly when every value can be coerced, and then every value is its coercion (the zero value, kept, or converted) and has its target type; otherwise the error is a type error at the first bad index, with that index's target type and actual type and the side's out flag, and with the values before it coerced and the rest untouched |
| Validation.CheckSideWellTyped | mockfunc.go:249-271 | a side already of the right types passes unchanged |
| Validation.ArityError | mockfunc.go:226-237 | there is no arity error exactly when each specified side has the function's arity; the input is checked first (out=false), then the output (out=true); a nil side is never checked |
| Validation.Validate | mockfunc.go:225-246 | validation keeps nil sides nil; after success each side has the function's parameter or result types; a failure is an arity error or a type error |
| Validation.ValidateIdempotent | mockfunc.go:225-271 | validating an already validated CallArgs passes again and changes nothing |
| Verification.ValueMismatches | mockfunc.go:187-197 | the specification of the inner loop of Check: one value error per argument that is not deeply equal, in argument order; characterised by the two lemmas below |
| Verification.ValueMismatchesSound | mockfunc.go:187-197 | each reported value error is for an argument that is not deeply equal, carries the call index, the argument index and both values, and the argument indices increase |
| Verification.ValueMismatchesComplete | mockfunc.go:187-197 | every argument that is not deeply equal is reported |
| Verification.CallMismatches | mockfunc.go:176-198 | the specification of one outer iteration of Check: nothing for a call without an expected input, otherwise the argument-count error when the counts differ, then the value errors |
| Verification.Mismatches | mockfunc.go:176-198 | the specification of Check's loop: the errors of every call, in call order; characterised by the lemmas below |
| Verification.CallMismatchesSound | mockfunc.go:176-198 | every error reported for a call is a real argument-count or argument-value discrepancy of that call |
| Verification.CallMismatchesOrdered | mockfunc.go:176-198 | the errors of a call are about that call only, the argument-count error first, then the arguments in order |
| Verification.MismatchesReal | mockfunc.go:176-198 | every reported error is a real discrepancy of one of the calls |
| Verification.MismatchesInOrder | mockfunc.go:176-198 | the reported errors are in ascending (call, argument) order, the argument-count error of a call before its argument errors |
| Verification.ArityReported | mockfunc.go:182-185 | a call whose argument count differs from its expected input's is reported with both counts |
| Verification.ValueReported | mockfunc.go:187-195 | every argument that is not deeply equal to its expected value is reported with both values |
| Verification.ReportedBreaksMatch | mockfunc.go:183-195 | any reported error shows that the calls did not all match |
| Verification.NoneReportedAllMatch | mockfunc.go:200-203 | an empty list means that every expected input matched its call |
| Verification.MismatchesEmpty | mockfunc.go:176-203 | the list is empty if and only if every call with an expected input matches it |
| Verification.CheckReport | mockfunc.go:168-204 | a call-count difference is reported alone, with both counts, exactly when the counts differ; a reported list is never empty |
| Verification.CheckPassesIff | mockfunc.go:168-204 | Check passes exactly when the counts agree and every expected input matches its call |
| Verification.MatchingCallsPass | mockfunc.go:164-204 | when each recorded argument is deeply equal to itself, calls equal to their expectations pass, whatever the calls at positions without an expected input got |
| MockFunc.CallArgs.Out | mockfunc.go:321-326 | the values are appended to the fake output, the input is untouched, and appending no values leaves a nil output nil |
| MockFunc.FuncVar.constructor | mockfunc.go:135-137 | a function variable of the given signature holding the given function, the thing `Mock` is given a pointer to |
| MockFunc.CallArgs.constructor | mockfunc.go:299-302 | a new CallArgs has a nil input and a nil output |
| MockFunc.In | mockfunc.go:306-312 | a new CallArgs whose input holds the values, or is nil when there are none, and whose output is nil |
| MockFunc.Out | mockfunc.go:316-318 | a new CallArgs whose output holds the values, or is nil when there are none, and whose input is nil |
| MockFunc.Func.constructor | mockfunc.go:142 | a new Func belongs to its binding, has empty queues and a zero cursor, and is valid |
| MockFunc.Func.ValidArgTypes | mockfunc.go:249-271 | the loop over one side computes exactly the coerced values and the error that the side specification gives |
| MockFunc.Func.ValidArgs | mockfunc.go:225-246 | the CallArgs is rewritten to, and the error is, what validation of its old sides gives |
| MockFunc.Func.Want | mockfunc.go:149-156 | a valid CallArgs appends exactly one entry to both the expectations and the fake outputs; an invalid one appends to neither; the cursor and the recorded calls are unchanged and the queue invariant is kept |
| MockFunc.Func.NextOut | mockfunc.go:274-280 | returns the fake output at the cursor when there is one, nothing otherwise, and the cursor advances by one |
| MockFunc.Func.Reset | mockfunc.go:283-288 | the cursor is zero and every queue is empty |
| MockFunc.Func.Check | mockfunc.go:168-204 | the report is the Check specification of the old queues, and the Func is reset afterwards |
| MockFunc.TypedComparable | mockfunc.go:182-188 | expectations and recorded calls of the function's input types can be compared argument by argument, so no recorded call is indexed past its end |
| MockFunc.CollectMismatches | mockfunc.go:175-198 | the loop of Check collects exactly the errors the specification gives, in call order, into a fresh list |
| MockFunc.AddCallMismatches | mockfunc.go:176-198 | one outer iteration appends exactly the errors that the specification gives for that call |
| MockFunc.AddValueMismatches | mockfunc.go:187-197 | the inner loop appends exactly the value errors of one call, in argument order |
| MockFunc.Func.Done | mockfunc.go:212-221 | removes the running test's Func; the original function is put back and the registry entry deleted exactly when no test is left; when no test can be resolved, nothing changes |
| MockFunc.Binding.constructor | mockfunc.go:42-47 | a new binding records the name of the function the variable holds, that function, its signature and the variable's address, and has no Funcs |
| MockFunc.Binding.NumFunc | mockfunc.go:123-125 | the count is zero exactly when no test has a Func |
| MockFunc.Binding.GetFunc | mockfunc.go:80-94 | the running test's Func; otherwise an unresolved-test error or a not-registered error naming the test |
| MockFunc.Binding.SetFunc | mockfunc.go:96-109 | registers the Func under the running test; a test that already has one is refused and nothing changes |
| MockFunc.Binding.NewFunc | mockfunc.go:142-146 | a fresh, empty Func is registered for a test not yet present; otherwise the error and no change |
| MockFunc.Binding.DelFunc | mockfunc.go:111-121 | removes exactly the running test's entry, keeping all others |
| MockFunc.Binding.Call | mockfunc.go:63-78 | without a Func for the running test, the result is the original function's and no queue changes; otherwise the arguments are appended once, the cursor advances, and the result is the fake output queued for this call when it is non-empty, else the original's; other tests' Funcs are unchanged |
| MockFunc.Registry.constructor | mockfunc.go:18-21 | the registry starts empty |
| MockFunc.Registry.GetMock | mockfunc.go:34-54 | the first use for a variable creates its binding, installs the proxy in the variable and adds one entry; later uses return the same binding and change nothing |
| MockFunc.Registry.Restore | mockfunc.go:216-219 | the variable gets its original function back and its registry entry is removed, nothing else |
| MockFunc.Registry.DelMock | mockfunc.go:56-61 | removes exactly the variable's entry |
| MockFunc.Mock | mockfunc.go:135-147 | the variable is bound once for all tests, and a fresh, empty Func is registered for the running test, or the refusal is returned; only the binding of this variable changes, and other variables keep their bindings and Funcs |
| MockFunc.MockThenDone | mockfunc.go:206-221 | mocking a variable and releasing it again leaves the variable holding its original function, the registry as it was, and every other binding with its Funcs |

## Left out

- Locking: the registry mutex and the per-mock mutex are not modelled. Every operation is sequential. This also leaves out the missing unlock on the refusal path of `setFunc` (mockfunc.go:103-104).
- Reflection: these are abstract or parameters.
  - Conversion, zero values and `DeepEqual` come from a `Conversions` record.
  - Building the proxy with `reflect.MakeFunc` and the `unsafe.Pointer` key are not modelled. The `Swap` value of a variable stands for the proxy, and object identity stands for the key.
- The call stack: `runtime.Callers`, `runtime.CallersFrames` and `runtime.FuncForPC` are not modelled. The stack is an input, so the skip argument of `runtime.Callers` is not modelled either.
- Panics of reflection: `Value.Convert` can panic even where `ConvertibleTo` holds (for instance a slice converted to an array pointer of a greater length); the `convert` of the model is total.
- Calling the original function: `orig.Call(args)` (mockfunc.go:68, 77) panics when the variable held a nil function; the `impl` of the model is a total function.
- Regular expressions: the two patterns are string predicates, not a regular-expression engine.
- The original function: it is an uninterpreted function from arguments to results, and calling it has no effects in the model.
- Message texts: the colour codes and format templates of the error records are not modelled. `ErrorList.Text`, the Go `Error` method, takes the text of each entry as a parameter.
  - The argument-count record formats its message with the call-count template (errors.go:86), so its text is not modelled.
  - The not-registered message of `getFunc` lacks a format verb (mockfunc.go:91). It is modelled as a structured error.
- MockFunc.Mock: checking that the argument is a pointer to a function variable (mockfunc.go:136-139) is left to the types. Where Go panics, this returns the error.
- MockFunc.Registry.GetMock: requires that a variable without a binding holds a plain function. A variable that already holds some other binding's proxy is not modelled.
- MustWant only panics on the error that Want returns, so it is not modelled separately.
- MockFunc.CallArgs.Out: the Go method also returns its receiver, for chaining. The model does not return it.
- Slice aliasing: the values are sequences. Aliasing between a `CallArgs` slice and the queues that hold it is not modelled.
- `Foobar` (mockfunc.go:14) depends on a package that is not part of this model.
- The test file of the repository is not part of this model.
- MockFunc.Func.Check: requires the queue invariant, under which each recorded call has the function's arity. The Go loop would index past a shorter recorded call, which this precondition rules out.
