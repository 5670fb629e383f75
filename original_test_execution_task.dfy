/** The baseline (reachability) pass over one worker's range of tests: each
    test is run once, unmutated, inside the sandbox with instrumentation set up
    around it; the testees a passing test reaches are appended to the worker's
    output, minus the first one, which stands for the test's own entry point. */
module OriginalTestExecution {
  import opened Execution
  import opened Collaborators

  /** The testees merged into the output for one `getTestees` answer: all of
      them but the first, which is the entry sentinel. */
  function WithoutSentinel(testees: seq<Testee>): seq<Testee> {
    if testees == [] then [] else testees[1..]
  }

  /** Exactly one testee, the first, is dropped from a non-empty answer; an
      answer of one testee contributes nothing. */
  lemma SentinelDropped(testees: seq<Testee>)
    ensures testees == [] ==> WithoutSentinel(testees) == []
    ensures testees != [] ==> [testees[0]] + WithoutSentinel(testees) == testees
    ensures |testees| == 1 ==> WithoutSentinel(testees) == []
  {
  }

  // Proof helpers: two generic sequence facts, stated once so that the
  // proofs below can supply them at exactly the step that needs them. They
  // model nothing of the task.

  lemma Associates<T>(a: seq<T>, b: seq<T>, c: seq<T>)
    ensures a + b + c == a + (b + c)
  {
  }

  lemma SliceSnoc<T>(s: seq<T>, begin: nat, end: nat)
    requires begin < end <= |s|
    ensures s[begin..end] == s[begin..end - 1] + [s[end - 1]]
  {
  }

  class OriginalTestExecutionTask {
    const instrumentation: Instrumentation
    const sandbox: ProcessSandbox
    const config: Configuration
    const filter: Filter

    /** The instrumentation and the sandbox report into the same event log. */
    ghost predicate Wired() {
      instrumentation.log == sandbox.log
    }

    constructor (instrumentation: Instrumentation, sandbox: ProcessSandbox,
                 config: Configuration, filter: Filter)
      requires instrumentation.log == sandbox.log
      ensures this.instrumentation == instrumentation && this.sandbox == sandbox
      ensures this.config == config && this.filter == filter
      ensures Wired()
    {
      this.instrumentation := instrumentation;
      this.sandbox := sandbox;
      this.config := config;
      this.filter := filter;
    }

    // ---- What one test contributes ----

    /** The result the sandbox reports for a test run with the configured timeout. */
    function Baseline(test: Test): ExecutionResult {
      sandbox.outcome(test, config.timeout)
    }

    predicate Passes(test: Test) {
      Baseline(test).status == Passed
    }

    /** What `getTestees` answers for a test, with the task's filter and distance bound. */
    function Reached(test: Test): seq<Testee> {
      instrumentation.reached(test, filter, config.maxDistance)
    }

    /** The testees the loop holds for a test after its run: only a passing
        test is asked for them. */
    function Observed(test: Test): seq<Testee> {
      if Passes(test) then Reached(test) else []
    }

    function Contribution(test: Test): seq<Testee> {
      WithoutSentinel(Observed(test))
    }

    /** The calls made for one test, in order. */
    function Calls(test: Test): seq<Event> {
      [SetupInstrumentation(test)] + [SandboxRun(test, config.timeout)]
      + (if Passes(test) then [QueryTestees(test, filter, config.maxDistance)] else [])
      + [CleanupInstrumentation(test)]
    }

    // ---- What a range of tests contributes ----
    // A range is given as the C++ loop gives it, by a begin and an end
    // position into the test vector.

    /** The testees appended for `tests[begin..end]`, in range order. */
    function Collected(tests: seq<Test>, begin: nat, end: nat): seq<Testee>
      requires begin <= end <= |tests|
      decreases end - begin
    {
      if end == begin then [] else Collected(tests, begin, end - 1) + Contribution(tests[end - 1])
    }

    /** The calls made for `tests[begin..end]`, in range order. */
    function Trace(tests: seq<Test>, begin: nat, end: nat): seq<Event>
      requires begin <= end <= |tests|
      decreases end - begin
    {
      if end == begin then [] else Trace(tests, begin, end - 1) + Calls(tests[end - 1])
    }

    /** The tests of `tests[begin..end]` whose baseline run passed, in range order. */
    function PassedTests(tests: seq<Test>, begin: nat, end: nat): seq<Test>
      requires begin <= end <= |tests|
      decreases end - begin
    {
      if end == begin then []
      else PassedTests(tests, begin, end - 1) + (if Passes(tests[end - 1]) then [tests[end - 1]] else [])
    }

    /** How many testees `getTestees` handed back over a range. */
    function ObservedTotal(tests: seq<Test>, begin: nat, end: nat): nat
      requires begin <= end <= |tests|
      decreases end - begin
    {
      if end == begin then 0 else ObservedTotal(tests, begin, end - 1) + |Observed(tests[end - 1])|
    }

    /** How many tests of a range handed back at least one testee. */
    function SentinelCount(tests: seq<Test>, begin: nat, end: nat): nat
      requires begin <= end <= |tests|
      decreases end - begin
    {
      if end == begin then 0
      else SentinelCount(tests, begin, end - 1) + (if Observed(tests[end - 1]) != [] then 1 else 0)
    }

    // ---- Properties of the output ----

    /** Splitting a range in two and running the halves one after the other
        (or on two workers whose outputs are concatenated in order) appends
        the same testees as running the whole range. */
    lemma {:induction false} CollectedSplit(tests: seq<Test>, begin: nat, mid: nat, end: nat)
      requires begin <= mid <= end <= |tests|
      ensures Collected(tests, begin, end) == Collected(tests, begin, mid) + Collected(tests, mid, end)
      decreases end - mid
    {
      if end > mid {
        CollectedSplit(tests, begin, mid, end - 1);
      }
    }

    lemma ContributionMembership(test: Test, x: Testee)
      ensures x in Contribution(test) <==>
        Passes(test) && Reached(test) != [] && x in Reached(test)[1..]
    {
    }

    /** A testee is in the output exactly when some test of the range passed
        and `getTestees` reported it for that test after the sentinel. */
    lemma {:induction false} CollectedMembership(tests: seq<Test>, begin: nat, end: nat, x: Testee)
      requires begin <= end <= |tests|
      ensures x in Collected(tests, begin, end) <==>
        exists k :: begin <= k < end && Passes(tests[k]) && Reached(tests[k]) != [] &&
          x in Reached(tests[k])[1..]
      decreases end - begin
    {
      if end > begin {
        CollectedMembership(tests, begin, end - 1, x);
        ContributionMembership(tests[end - 1], x);
        assert x in Collected(tests, begin, end) <==>
          x in Collected(tests, begin, end - 1) || x in Contribution(tests[end - 1]);
      }
    }

    /** Each test whose `getTestees` answer is non-empty loses exactly one
        testee, its sentinel; every other testee reaches the output. */
    lemma {:induction false} CollectedLength(tests: seq<Test>, begin: nat, end: nat)
      requires begin <= end <= |tests|
      ensures |Collected(tests, begin, end)| + SentinelCount(tests, begin, end) == ObservedTotal(tests, begin, end)
      decreases end - begin
    {
      if end > begin {
        CollectedLength(tests, begin, end - 1);
      }
    }

    /** When no test of the range passes, nothing is appended. */
    lemma {:induction false} NothingPassedNothingCollected(tests: seq<Test>, begin: nat, end: nat)
      requires begin <= end <= |tests|
      requires forall k :: begin <= k < end ==> !Passes(tests[k])
      ensures Collected(tests, begin, end) == []
      decreases end - begin
    {
      if end > begin {
        NothingPassedNothingCollected(tests, begin, end - 1);
      }
    }

    // ---- Properties of the calls ----

    lemma {:induction false} TraceSplit(tests: seq<Test>, begin: nat, mid: nat, end: nat)
      requires begin <= mid <= end <= |tests|
      ensures Trace(tests, begin, end) == Trace(tests, begin, mid) + Trace(tests, mid, end)
      decreases end - mid
    {
      if end > mid {
        TraceSplit(tests, begin, mid, end - 1);
      }
    }

    lemma CallsBracketed(test: Test)
      ensures Bracketed(Calls(test))
    {
      var rest := if Passes(test) then [QueryTestees(test, filter, config.maxDistance)] else [];
      var cleanup := [CleanupInstrumentation(test)];
      assert Calls(test) == [SetupInstrumentation(test)] + ([SandboxRun(test, config.timeout)] + (rest + cleanup));
      ReplayAppend([SetupInstrumentation(test)], [SandboxRun(test, config.timeout)] + (rest + cleanup), Idle);
      ReplayAppend([SandboxRun(test, config.timeout)], rest + cleanup, SetUp(test));
      ReplayAppend(rest, cleanup, Ran(test));
    }

    /** Every test is set up, run once, possibly queried, and cleaned up before
        the next one is set up, whatever its result. */
    lemma {:induction false} TraceBracketed(tests: seq<Test>, begin: nat, end: nat)
      requires begin <= end <= |tests|
      ensures Bracketed(Trace(tests, begin, end))
      decreases end - begin
    {
      if end > begin {
        TraceBracketed(tests, begin, end - 1);
        CallsBracketed(tests[end - 1]);
        BracketedConcat(Trace(tests, begin, end - 1), Calls(tests[end - 1]));
      }
    }

    /** For one test: one setup, one sandbox run and one cleanup, and a query
        exactly when the test passed. */
    lemma CallsPerKind(test: Test, kind: EventKind)
      ensures TestsOf(Calls(test), kind) ==
        if kind != Query || Passes(test) then [test] else []
    {
      var setup := [SetupInstrumentation(test)];
      var run := [SandboxRun(test, config.timeout)];
      var query := if Passes(test) then [QueryTestees(test, filter, config.maxDistance)] else [];
      var cleanup := [CleanupInstrumentation(test)];
      assert Calls(test) == setup + run + query + cleanup;
      TestsOfAppend(setup + run + query, cleanup, kind);
      TestsOfAppend(setup + run, query, kind);
      TestsOfAppend(setup, run, kind);
    }

    /** The tests of one kind of call over a range are those over the range
        without its last test, followed by those of the last test's calls. */
    lemma TestsOfTraceSnoc(tests: seq<Test>, begin: nat, end: nat, kind: EventKind)
      requires begin < end <= |tests|
      ensures TestsOf(Trace(tests, begin, end), kind) ==
        TestsOf(Trace(tests, begin, end - 1), kind) + TestsOf(Calls(tests[end - 1]), kind)
    {
      TestsOfAppend(Trace(tests, begin, end - 1), Calls(tests[end - 1]), kind);
    }

    lemma {:induction false} TraceTestsOfEvery(tests: seq<Test>, begin: nat, end: nat, kind: EventKind)
      requires begin <= end <= |tests|
      requires kind != Query
      ensures TestsOf(Trace(tests, begin, end), kind) == tests[begin..end]
      decreases end - begin
    {
      if end > begin {
        TraceTestsOfEvery(tests, begin, end - 1, kind);
        TestsOfTraceSnoc(tests, begin, end, kind);
        CallsPerKind(tests[end - 1], kind);
        SliceSnoc(tests, begin, end);
      }
    }

    lemma {:induction false} TraceQueries(tests: seq<Test>, begin: nat, end: nat)
      requires begin <= end <= |tests|
      ensures TestsOf(Trace(tests, begin, end), Query) == PassedTests(tests, begin, end)
      decreases end - begin
    {
      if end > begin {
        var last := tests[end - 1];
        var own := if Passes(last) then [last] else [];
        assert TestsOf(Calls(last), Query) == own by { CallsPerKind(last, Query); }
        assert TestsOf(Trace(tests, begin, end - 1), Query) == PassedTests(tests, begin, end - 1) by {
          TraceQueries(tests, begin, end - 1);
        }
        TestsOfTraceSnoc(tests, begin, end, Query);
        assert PassedTests(tests, begin, end) == PassedTests(tests, begin, end - 1) + own;
      }
    }

    /** Setup, the sandbox run and cleanup happen for every test of the range,
        in range order; `getTestees` is asked for exactly the passing ones. */
    lemma TraceCallsPerTest(tests: seq<Test>, begin: nat, end: nat)
      requires begin <= end <= |tests|
      ensures TestsOf(Trace(tests, begin, end), Setup) == tests[begin..end]
      ensures TestsOf(Trace(tests, begin, end), Run) == tests[begin..end]
      ensures TestsOf(Trace(tests, begin, end), Cleanup) == tests[begin..end]
      ensures TestsOf(Trace(tests, begin, end), Query) == PassedTests(tests, begin, end)
    {
      TraceTestsOfEvery(tests, begin, end, Setup);
      TraceTestsOfEvery(tests, begin, end, Run);
      TraceTestsOfEvery(tests, begin, end, Cleanup);
      TraceQueries(tests, begin, end);
    }

    /** The sandbox is always given the configured timeout, and `getTestees`
        the task's filter and the configured distance bound. */
    lemma {:induction false} TraceArguments(tests: seq<Test>, begin: nat, end: nat)
      requires begin <= end <= |tests|
      ensures forall e | e in Trace(tests, begin, end) :: e.SandboxRun? ==> e.timeout == config.timeout
      ensures forall e | e in Trace(tests, begin, end) ::
        e.QueryTestees? ==> e.filter == filter && e.maxDistance == config.maxDistance
      decreases end - begin
    {
      if end > begin {
        TraceArguments(tests, begin, end - 1);
      }
    }

    // ---- The loop itself ----

    /** Runs the baseline of every test in `tests[begin..end]`, storing each
        result on its test and appending the reached testees to `storage`;
        the counter advances once per test, skipped or not. */
    method Execute(tests: seq<Test>, begin: nat, end: nat,
                   storage: TesteeStorage, counter: ProgressCounter)
      requires Wired()
      requires begin <= end <= |tests|
      modifies storage, counter, instrumentation.log, tests[begin..end]
      ensures counter.value == old(counter.value) + (end - begin)
      ensures forall k :: begin <= k < end ==> tests[k].executionResult == Some(Baseline(tests[k]))
      ensures storage.items == old(storage.items) + Collected(tests, begin, end)
      ensures instrumentation.log.events == old(instrumentation.log.events) + Trace(tests, begin, end)
    {
      ghost var items0, events0 := storage.items, instrumentation.log.events;
      var log := instrumentation.log;
      var it := begin;
      while it < end
        invariant begin <= it <= end
        invariant counter.value == old(counter.value) + (it - begin)
        invariant forall k :: begin <= k < it ==> tests[k].executionResult == Some(Baseline(tests[k]))
        invariant storage.items == items0 + Collected(tests, begin, it)
        invariant log.events == events0 + Trace(tests, begin, it)
      {
        var test := tests[it];
        RunAt(tests, begin, it, storage);
        Associates(items0, Collected(tests, begin, it), Contribution(test));
        Associates(events0, Trace(tests, begin, it), Calls(test));

        // The for-header: advance the iterator and the counter.
        it := it + 1;
        counter.Increment();
      }
    }

    /** Runs the test at position `it` of a range whose earlier tests already
        hold their results; afterwards the test at `it` holds its own too. */
    method RunAt(tests: seq<Test>, begin: nat, it: nat, storage: TesteeStorage)
      requires Wired()
      requires begin <= it < |tests|
      requires forall k :: begin <= k < it ==> tests[k].executionResult == Some(Baseline(tests[k]))
      modifies storage, instrumentation.log, tests[it]
      ensures forall k :: begin <= k <= it ==> tests[k].executionResult == Some(Baseline(tests[k]))
      ensures storage.items == old(storage.items) + Contribution(tests[it])
      ensures instrumentation.log.events == old(instrumentation.log.events) + Calls(tests[it])
    {
      var test := tests[it];
      RunBaseline(test, storage);
      forall k | begin <= k <= it
        ensures tests[k].executionResult == Some(Baseline(tests[k]))
      {
        if tests[k] != test {
          assert tests[k].executionResult == old(tests[k].executionResult);
        }
      }
    }

    /** The body of the loop for one test: the instrumentation bracket around
        its sandboxed run, the stored result, and the append of the testees
        that follow the sentinel. */
    method RunBaseline(test: Test, storage: TesteeStorage)
      requires Wired()
      modifies storage, instrumentation.log, test
      ensures test.executionResult == Some(Baseline(test))
      ensures storage.items == old(storage.items) + Contribution(test)
      ensures instrumentation.log.events == old(instrumentation.log.events) + Calls(test)
    {
      instrumentation.SetupInstrumentationInfo(test);
      var result := sandbox.Run(test, config.timeout);
      test.SetExecutionResult(result);

      var testees: seq<Testee> := [];
      if result.status == Passed {
        testees := instrumentation.GetTestees(test, filter, config.maxDistance);
      }
      instrumentation.CleanupInstrumentationInfo(test);

      // An empty answer skips the append (the C++ loop's `continue`).
      if testees != [] {
        var j := 1;
        while j < |testees|
          modifies storage
          invariant 1 <= j <= |testees|
          invariant storage.items == old(storage.items) + testees[1..j]
        {
          storage.PushBack(testees[j]);
          j := j + 1;
        }
      }

      ghost var events0 := old(instrumentation.log.events);
      ghost var setup, run := [SetupInstrumentation(test)], [SandboxRun(test, config.timeout)];
      ghost var query := if Passes(test) then [QueryTestees(test, filter, config.maxDistance)] else [];
      ghost var cleanup := [CleanupInstrumentation(test)];
      assert instrumentation.log.events == events0 + setup + run + query + cleanup;
      Associates(events0, setup, run);
      Associates(events0, setup + run, query);
      Associates(events0, setup + run + query, cleanup);
    }
  }
}
