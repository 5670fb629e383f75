/** Values and entities the baseline execution pass works on: tests, their
    execution results, testees and the configuration the task reads. */
module Execution {

  datatype Option<T> = None | Some(value: T)

  /** What one sandboxed run of a test reports. */
  datatype ExecutionStatus = Passed | Failed | Crashed | TimedOut | Error

  /** The outcome of one execution: its status, how long it ran and what it printed. */
  datatype ExecutionResult = ExecutionResult(
    status: ExecutionStatus,
    runningTime: nat,
    stdoutOutput: string,
    stderrOutput: string)

  /** The two options the baseline pass reads: the per-test time budget and the
      reachability cut-off handed to the instrumentation. */
  datatype Configuration = Configuration(timeout: nat, maxDistance: nat)

  /** The inclusion/exclusion policy; the task only passes it on to the
      instrumentation, so its rules are kept as opaque data. */
  datatype Filter = Filter(rules: seq<string>)

  /** A named test. Its execution-result slot is empty until a run stores one. */
  class Test {
    const name: string
    var executionResult: Option<ExecutionResult>

    constructor (name: string)
      ensures this.name == name && executionResult == None
    {
      this.name := name;
      executionResult := None;
    }

    method SetExecutionResult(result: ExecutionResult)
      modifies this
      ensures executionResult == Some(result)
    {
      executionResult := Some(result);
    }
  }

  /** A test together with one function reached while it ran and the call
      depth at which it was reached. */
  datatype Testee = Testee(test: Test, callee: string, distance: nat)
}
