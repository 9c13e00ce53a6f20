/** Which test is running: the outermost frame of the call stack that is a Go test
    function in a test file. The stack is an input here, innermost frame first, as
    the runtime hands it out. */
module TestContext {
  import opened Wrappers

  /** A stack frame: the source file it is in and the qualified function name
      (`""` when the runtime knows no function for it). */
  datatype Frame = Frame(file: string, funcName: string)

  predicate EndsWith(s: string, suffix: string)
  {
    |suffix| <= |s| && s[|s| - |suffix|..] == suffix
  }

  /** The pattern `_test\.go$` on a file name. */
  predicate IsTestFile(file: string)
  {
    EndsWith(file, "_test.go")
  }

  /** The predicate agrees with the pattern `_test\.go$`: the name is some string
      followed by "_test.go". */
  lemma IsTestFileMatchesPattern(file: string)
    ensures IsTestFile(file) <==> exists p :: file == p + "_test.go"
  {
    if IsTestFile(file) {
      var p := file[..|file| - 8];
      assert file == p + "_test.go";
    }
    if p :| file == p + "_test.go" {
      assert file[|file| - 8..] == "_test.go";
    }
  }

  /** The class `[0-9A-Za-z_]`. */
  predicate IsWordChar(c: char)
  {
    ('0' <= c <= '9') || ('A' <= c <= 'Z') || ('a' <= c <= 'z') || c == '_'
  }

  /** `s` has ".Test" at `k` and only word characters after it. */
  ghost predicate TestSuffixAt(s: string, k: int)
  {
    0 <= k && k + 5 <= |s| && s[k..k + 5] == ".Test"
    && forall m :: k + 5 <= m < |s| ==> IsWordChar(s[m])
  }

  /** What the pattern `\.Test[0-9A-Za-z_]*$` matches: some position starts ".Test"
      followed only by word characters up to the end. */
  ghost predicate MatchesTestNamePattern(s: string)
  {
    exists k :: TestSuffixAt(s, k)
  }

  /** The index of the last character of `s` that is not a word character. */
  function LastNonWord(s: string): (r: Option<nat>)
    ensures r.Some? ==> r.value < |s| && !IsWordChar(s[r.value])
    ensures r.Some? ==> forall m :: r.value < m < |s| ==> IsWordChar(s[m])
    ensures r.None? ==> forall m :: 0 <= m < |s| ==> IsWordChar(s[m])
    decreases |s|
  {
    if s == [] then None
    else if !IsWordChar(s[|s| - 1]) then Some(|s| - 1)
    else LastNonWord(s[..|s| - 1])
  }

  /** The test-function pattern, decided from the last non-word character: since '.'
      is not a word character and "Test" and what follows it are, a match can only
      start there. */
  predicate IsTestFuncName(s: string)
  {
    match LastNonWord(s)
    case None => false
    case Some(k) => s[k] == '.' && k + 5 <= |s| && s[k + 1..k + 5] == "Test"
  }

  /** The decision procedure agrees with the pattern, in both directions. */
  lemma IsTestFuncNameMatchesPattern(s: string)
    ensures IsTestFuncName(s) <==> MatchesTestNamePattern(s)
  {
    var last := LastNonWord(s);
    if IsTestFuncName(s) {
      var k := last.value;
      assert s[k..k + 5] == [s[k]] + s[k + 1..k + 5];
      assert TestSuffixAt(s, k);
    }
    if MatchesTestNamePattern(s) {
      var k :| TestSuffixAt(s, k);
      assert s[k] == s[k..k + 5][0] == '.';
      assert forall m :: k < m < k + 5 ==> s[m] == s[k..k + 5][m - k];
      assert last.Some?;
      var l := last.value;
      assert l == k;
      assert s[k + 1..k + 5] == s[k..k + 5][1..];
    }
  }

  /** `testframe`: the frame is a test function in a test file. */
  predicate IsTestFrame(f: Frame)
  {
    IsTestFile(f.file) && IsTestFuncName(f.funcName)
  }

  /** A test frame always has a non-empty function name, so finding one ends the
      search in `TestName`. */
  lemma TestFrameHasName(f: Frame)
    requires IsTestFrame(f)
    ensures |f.funcName| > 0
  {
  }

  /** The function name of the outermost test frame of `stack` (innermost first),
      or None when no frame is a test frame. */
  function OutermostTest(stack: seq<Frame>): (name: Option<string>)
    decreases |stack|
  {
    if stack == [] then None
    else if IsTestFrame(stack[|stack| - 1]) then Some(stack[|stack| - 1].funcName)
    else OutermostTest(stack[..|stack| - 1])
  }

  /** A name is found only when some frame is a test frame; it is then the name of
      the test frame closest to the root. */
  lemma {:induction false} OutermostTestFound(stack: seq<Frame>)
    ensures OutermostTest(stack).Some? ==>
      exists k :: 0 <= k < |stack| && IsTestFrame(stack[k])
        && OutermostTest(stack).value == stack[k].funcName
        && forall m :: k < m < |stack| ==> !IsTestFrame(stack[m])
    decreases |stack|
  {
    if stack != [] && !IsTestFrame(stack[|stack| - 1]) {
      var init := stack[..|stack| - 1];
      OutermostTestFound(init);
      if OutermostTest(init).Some? {
        var k :| 0 <= k < |init| && IsTestFrame(init[k])
          && OutermostTest(init).value == init[k].funcName
          && forall m :: k < m < |init| ==> !IsTestFrame(init[m]);
        assert stack[k] == init[k];
        forall m | k < m < |stack|
          ensures !IsTestFrame(stack[m])
        {
          if m < |init| {
            assert stack[m] == init[m];
          }
        }
      }
    }
  }

  /** The outermost test frame decides the result. */
  lemma {:induction false} OutermostTestAt(stack: seq<Frame>, k: nat)
    requires k < |stack| && IsTestFrame(stack[k])
    requires forall m :: k < m < |stack| ==> !IsTestFrame(stack[m])
    ensures OutermostTest(stack) == Some(stack[k].funcName)
    decreases |stack|
  {
    if k < |stack| - 1 {
      var init := stack[..|stack| - 1];
      assert init[k] == stack[k];
      assert forall m :: k < m < |init| ==> init[m] == stack[m];
      OutermostTestAt(init, k);
    }
  }

  /** Without a test frame there is no test name. */
  lemma {:induction false} NoTestFrameUnresolved(stack: seq<Frame>)
    requires forall k :: 0 <= k < |stack| ==> !IsTestFrame(stack[k])
    ensures OutermostTest(stack) == None
    decreases |stack|
  {
    if stack != [] {
      var init := stack[..|stack| - 1];
      assert forall k :: 0 <= k < |init| ==> init[k] == stack[k];
      NoTestFrameUnresolved(init);
    }
  }

  /** `runtime.Callers(skip, pcs)` with a buffer of `size`: the part of the stack that
      starts `skip` frames in, at most `size` frames long. */
  function CallersWindow(stack: seq<Frame>, skip: nat, size: nat): (w: seq<Frame>)
    ensures |w| <= size
    ensures skip + |w| <= |stack| || w == []
  {
    if skip >= |stack| then []
    else if skip + size <= |stack| then stack[skip..skip + size]
    else stack[skip..]
  }

  /** `collectcallers`: gathers the stack in windows of ten until a window comes back
      short, and so loses no frame however deep the stack is. */
  method CollectCallers(stack: seq<Frame>) returns (callers: seq<Frame>)
    ensures callers == stack
  {
    callers := [];
    while true
      invariant |callers| <= |stack| && callers == stack[..|callers|]
      decreases |stack| - |callers|
    {
      var pcs := CallersWindow(stack, |callers|, 10);
      callers := callers + pcs;
      if |pcs| < 10 {
        break;
      }
    }
  }

  /** `reverse`: swaps the frames of `a` in place, from the middle outwards, so that
      the outermost caller ends up first. */
  method Reverse(a: array<Frame>)
    modifies a
    ensures forall k :: 0 <= k < a.Length ==> a[k] == old(a[a.Length - 1 - k])
  {
    var n := a.Length;
    var i := n / 2 - 1;
    while i >= 0
      invariant -1 <= i < n / 2
      invariant forall k :: 0 <= k < n ==>
                  a[k] == if i < k < n - 1 - i then old(a[n - 1 - k]) else old(a[k])
    {
      var opp := n - 1 - i;
      a[i], a[opp] := a[opp], a[i];
      i := i - 1;
    }
  }

  /** `reverse(collectcallers())`: the whole stack, outermost caller first. */
  method CallersRootFirst(stack: seq<Frame>) returns (rootFirst: seq<Frame>)
    ensures |rootFirst| == |stack|
    ensures forall k :: 0 <= k < |stack| ==> rootFirst[k] == stack[|stack| - 1 - k]
  {
    var callers := CollectCallers(stack);
    var frames := new Frame[|callers|](k requires 0 <= k < |callers| => callers[k]);
    ghost var unreversed := frames[..];
    Reverse(frames);
    rootFirst := frames[..];
    forall k | 0 <= k < |stack| ensures rootFirst[k] == stack[|stack| - 1 - k] {
      assert frames[k] == unreversed[|stack| - 1 - k];
    }
  }

  /** `testname`: walks the stack from the root and stops at the first test frame,
      which is therefore the outermost one; None stands for the error "unable to
      resolve test name". */
  method TestName(stack: seq<Frame>) returns (name: Option<string>)
    ensures name == OutermostTest(stack)
  {
    var rootFirst := CallersRootFirst(stack);
    var n := |rootFirst|;
    var found := "";
    var i := 0;
    while i < n
      invariant 0 <= i <= n
      invariant found == ""
      invariant forall m :: n - 1 - i < m < n ==> !IsTestFrame(stack[m])
    {
      var f := rootFirst[i];
      if IsTestFrame(f) {
        found := f.funcName;
        TestFrameHasName(f);
        OutermostTestAt(stack, n - 1 - i);
      }
      if |found| > 0 {
        break;
      }
      i := i + 1;
    }
    if |found| == 0 {
      NoTestFrameUnresolved(stack);
      return None;
    }
    return Some(found);
  }
}
