# Baseline test execution task (Mull)

This project models the task that Mull, a mutation-testing tool for LLVM, runs during its
baseline (reachability) phase. A worker gets a range of the test vector. For each test in
that range it does the following:

- sets up instrumentation for the test;
- runs the unmutated test once inside the process sandbox, with the configured timeout;
- stores the result on the test;
- asks the instrumentation which functions ("testees") the test reached, but only when the
  result is `Passed`, passing the filter and the configured distance bound;
- cleans up the instrumentation.

The worker appends every reported testee except the first to its own output vector. The
first one is a sentinel that stands for the test's own entry point. The shared progress
counter advances once per test, including tests that are skipped because they reported
nothing.

The model has three modules:

- `Execution` (`execution.dfy`) holds the values:
  - execution status and result;
  - the configuration's timeout and distance bound;
  - the filter;
  - testees;
  - the `Test` class, whose result slot is updated in place.
- `Collaborators` (`collaborators.dfy`) holds the objects the task calls:
  - the instrumentation;
  - the process sandbox;
  - the progress counter;
  - the output vector.

  Each call into the instrumentation or the sandbox appends one `Event` to a shared `EventLog`, so the
  order of the calls is part of the state. The module also holds the reference definition of
  a well-ordered trace: a small state machine (`Step`, `Replay`, `Bracketed`). In that
  machine, setup opens a bracket for one test, then that test is run, then optionally
  queried, and cleanup of the same test closes the bracket.
- `OriginalTestExecution` (`original_test_execution_task.dfy`) holds the following:
  - the task class;
  - its per-test specification (`Baseline`, `Passes`, `Reached`, `Contribution`, `Calls`);
  - its per-range specification (`Collected`, `Trace`, `PassedTests`, `ObservedTotal`,
    `SentinelCount`);
  - the method `Execute`, which is the task's call operator, proved against that
    specification;
  - lemmas that derive what the task promises from the specification.

What the sandbox reports for a test is a function `outcome` fixed when the sandbox is
built. The same holds for what the instrumentation reports for a test, a filter and a
distance (`reached`). So the model states results in terms of those answers, not in terms
of how they are computed.

## Model

| member | source | states |
|---|---|---|
| OriginalTestExecution.OriginalTestExecutionTask.Execute | lib/Parallelization/Tasks/OriginalTestExecutionTask.cpp:20-53 | After the loop over `tests[begin..end]`: the counter grew by exactly `end - begin`; every test of the range holds the result the sandbox gave it under the configured timeout; the output vector is its old contents followed by `Collected`, the per-test non-sentinel testees in range order (so it is only appended to); the calls made are exactly `Trace`, the per-test call sequences in range order |
| OriginalTestExecution.OriginalTestExecutionTask.RunAt | lib/Parallelization/Tasks/OriginalTestExecutionTask.cpp:24-51 | One iteration at position `it`: the test at `it` now holds its result, the earlier tests of the range keep theirs, and the output and the calls grow by that test's contribution and call sequence |
| OriginalTestExecution.OriginalTestExecutionTask.RunBaseline | lib/Parallelization/Tasks/OriginalTestExecutionTask.cpp:24-51 | For one test: the stored result is the sandbox's answer; the output grows by the `getTestees` answer without its first element if the test passed and by nothing otherwise, including the empty-answer `continue`; the calls are setup, run, the query only when passed, then cleanup |
| OriginalTestExecution.OriginalTestExecutionTask.constructor | lib/Parallelization/Tasks/OriginalTestExecutionTask.cpp:13-18 | The task keeps the instrumentation, sandbox, configuration and filter it is given, and nothing else happens |
| OriginalTestExecution.SentinelDropped | lib/Parallelization/Tasks/OriginalTestExecutionTask.cpp:45-51 | An empty answer contributes nothing; a non-empty answer is exactly its first element followed by what is appended; a one-element answer contributes nothing |
| OriginalTestExecution.OriginalTestExecutionTask.ContributionMembership | lib/Parallelization/Tasks/OriginalTestExecutionTask.cpp:33-51 | A testee is appended for a test if and only if the test passed, its answer is non-empty and the testee occurs in the answer after the first position |
| OriginalTestExecution.OriginalTestExecutionTask.CollectedMembership | lib/Parallelization/Tasks/OriginalTestExecutionTask.cpp:33-51 | A testee is in a range's output if and only if some test of the range passed and `getTestees` reported it for that test after the sentinel |
| OriginalTestExecution.OriginalTestExecutionTask.CollectedLength | lib/Parallelization/Tasks/OriginalTestExecutionTask.cpp:45-51 | The output length plus the number of tests with a non-empty answer equals the total length of the answers: exactly one testee per non-empty answer is dropped |
| OriginalTestExecution.OriginalTestExecutionTask.NothingPassedNothingCollected | lib/Parallelization/Tasks/OriginalTestExecutionTask.cpp:35-47 | When no test of the range passes, nothing is appended |
| OriginalTestExecution.OriginalTestExecutionTask.CollectedSplit | lib/Parallelization/Tasks/OriginalTestExecutionTask.cpp:20-23 | Running `[begin, mid)` and then `[mid, end)` appends the same testees, in the same order, as running `[begin, end)`. So, given that a test's sandbox verdict and `getTestees` answer are the same on every run, splitting the vector among workers and concatenating their outputs in order gives the same output |
| OriginalTestExecution.OriginalTestExecutionTask.TraceSplit | lib/Parallelization/Tasks/OriginalTestExecutionTask.cpp:20-23 | The calls made for a range are those for its first part followed by those for its second part |
| OriginalTestExecution.OriginalTestExecutionTask.CallsBracketed | lib/Parallelization/Tasks/OriginalTestExecutionTask.cpp:26-43 | The calls for one test are accepted by the bracket state machine: setup comes first, then the run, then optionally the query, and cleanup closes the bracket, on both the passing and the failing path |
| OriginalTestExecution.OriginalTestExecutionTask.TraceBracketed | lib/Parallelization/Tasks/OriginalTestExecutionTask.cpp:23-43 | The calls for a whole range are accepted by the bracket state machine: no test is set up before the previous one is cleaned up, and every setup is cleaned up |
| OriginalTestExecution.OriginalTestExecutionTask.CallsPerKind | lib/Parallelization/Tasks/OriginalTestExecutionTask.cpp:26-43 | For one test there is exactly one setup, one sandbox run and one cleanup, each for that test, and one query if and only if the test passed |
| OriginalTestExecution.OriginalTestExecutionTask.TraceTestsOfEvery | lib/Parallelization/Tasks/OriginalTestExecutionTask.cpp:23-43 | Over a range, the tests that are set up, run or cleaned up are `tests[begin..end]` exactly, in order, once each |
| OriginalTestExecution.OriginalTestExecutionTask.TraceQueries | lib/Parallelization/Tasks/OriginalTestExecutionTask.cpp:35-37 | Over a range, `getTestees` is asked for exactly the tests that passed, in range order |
| OriginalTestExecution.OriginalTestExecutionTask.TraceCallsPerTest | lib/Parallelization/Tasks/OriginalTestExecutionTask.cpp:23-43 | The two statements above together: setup, run and cleanup happen for every test of the range, and the query happens only for passing ones |
| OriginalTestExecution.OriginalTestExecutionTask.TraceArguments | lib/Parallelization/Tasks/OriginalTestExecutionTask.cpp:28-37 | Every sandbox run over a range gets the configured timeout; every `getTestees` call gets the task's filter and the configured distance bound |
| Execution.Test.SetExecutionResult | lib/Parallelization/Tasks/OriginalTestExecutionTask.cpp:31 | The test's result slot holds the given result |
| Collaborators.Instrumentation.SetupInstrumentationInfo | lib/Parallelization/Tasks/OriginalTestExecutionTask.cpp:26 | Records one setup call for the test and changes nothing else |
| Collaborators.ProcessSandbox.Run | lib/Parallelization/Tasks/OriginalTestExecutionTask.cpp:28-29 | Returns the sandbox's verdict for the test under the given timeout and records one run call |
| Collaborators.Instrumentation.GetTestees | lib/Parallelization/Tasks/OriginalTestExecutionTask.cpp:36-37 | Returns the instrumentation's answer for the test, filter and distance, and records one query call |
| Collaborators.Instrumentation.CleanupInstrumentationInfo | lib/Parallelization/Tasks/OriginalTestExecutionTask.cpp:43 | Records one cleanup call for the test and changes nothing else |
| Collaborators.ProgressCounter.Increment | lib/Parallelization/Tasks/OriginalTestExecutionTask.cpp:23 | The counter grows by one |
| Collaborators.TesteeStorage.PushBack | lib/Parallelization/Tasks/OriginalTestExecutionTask.cpp:50 | The output vector is its old contents followed by the testee |

## Left out

- The failure message written to the error stream (lines 38-42) is not modelled. It is output only and does not affect the state. `getTestName` and `getStatusAsString` are therefore not modelled either.
- The test runner and the JIT engine are not separate objects. The lambda the sandbox runs (line 29) is folded into the sandbox's `outcome` function of test and timeout.
- Sandbox internals (forking, enforcing the timeout, capturing output) are left out. The sandbox is reduced to its answer.
- Instrumentation internals (how reachability is recorded and how the filter and distance are applied) are left out. The instrumentation is reduced to its answer `reached`.
- Concurrency is not modelled. Neither is the atomicity of the progress counter that the workers share: one call of the task runs sequentially, over its own output vector.
- `std::unique_ptr` ownership and the moves at lines 33-37 and 50 are not modelled. Testees are values, and tests are objects referenced from a sequence.
- The iterator pair is modelled as positions `begin <= end` into the test sequence. Iterating a range whose end comes before its begin is undefined in the source, so it is excluded.
- The header that defines the execution statuses is not part of this model. Only `Passed` matters to the task (line 35). The other statuses, `Failed | Crashed | TimedOut | Error`, are placeholders for "not passed".
- `OriginalTestExecution.OriginalTestExecutionTask.RunAt` and `OriginalTestExecution.OriginalTestExecutionTask.RunBaseline` are the loop body split into methods. The source writes it inline.
- Appends to the output vector (line 50), counter ticks (line 23) and stores of a test's result (line 31) are not logged, so no contract states when they happen relative to the instrumentation and sandbox calls. The contracts state only their final effect: the new contents, the new value and the stored result.
- The shared `EventLog` and the `Wired` requirement are modelling devices. They make the order of collaborator calls observable, which the source does not do.
- include/MutationOperators/AddMutationOperator.h is not part of this model. It only declares a mutation operator that this task does not use.
- unittests/ModuleLoaderTest.cpp is not part of this model. It exercises module loading from files, not this task.
