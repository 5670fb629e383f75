/** The collaborators the baseline execution task calls, reduced to their
    interfaces: the instrumentation, the process sandbox, the progress counter
    and the output vector. The instrumentation and the sandbox record each call
    in one shared event log, so that the order of the calls can be stated. */
module Collaborators {
  import opened Execution

  /** One call made into the instrumentation or the sandbox. */
  datatype Event =
    | SetupInstrumentation(test: Test)
    | SandboxRun(test: Test, timeout: nat)
    | QueryTestees(test: Test, filter: Filter, maxDistance: nat)
    | CleanupInstrumentation(test: Test)
  {
    function Kind(): EventKind {
      match this
      case SetupInstrumentation(_) => Setup
      case SandboxRun(_, _) => Run
      case QueryTestees(_, _, _) => Query
      case CleanupInstrumentation(_) => Cleanup
    }
  }

  datatype EventKind = Setup | Run | Query | Cleanup

  class EventLog {
    var events: seq<Event>

    constructor ()
      ensures events == []
    {
      events := [];
    }

    method Record(e: Event)
      modifies this
      ensures events == old(events) + [e]
    {
      events := events + [e];
    }
  }

  /** Reachability tracking. What `getTestees` reports for a test, a filter
      and a distance bound is the uninterpreted function `reached`. */
  class Instrumentation {
    const log: EventLog
    const reached: (Test, Filter, nat) -> seq<Testee>

    constructor (log: EventLog, reached: (Test, Filter, nat) -> seq<Testee>)
      ensures this.log == log && this.reached == reached
    {
      this.log := log;
      this.reached := reached;
    }

    method SetupInstrumentationInfo(test: Test)
      modifies log
      ensures log.events == old(log.events) + [SetupInstrumentation(test)]
    {
      log.Record(SetupInstrumentation(test));
    }

    method GetTestees(test: Test, filter: Filter, maxDistance: nat) returns (testees: seq<Testee>)
      modifies log
      ensures testees == reached(test, filter, maxDistance)
      ensures log.events == old(log.events) + [QueryTestees(test, filter, maxDistance)]
    {
      log.Record(QueryTestees(test, filter, maxDistance));
      testees := reached(test, filter, maxDistance);
    }

    method CleanupInstrumentationInfo(test: Test)
      modifies log
      ensures log.events == old(log.events) + [CleanupInstrumentation(test)]
    {
      log.Record(CleanupInstrumentation(test));
    }
  }

  /** Isolated, time-bounded execution of a test through the test runner and
      the JIT engine. Its verdict for a test and a timeout is the uninterpreted
      function `outcome`. */
  class ProcessSandbox {
    const log: EventLog
    const outcome: (Test, nat) -> ExecutionResult

    constructor (log: EventLog, outcome: (Test, nat) -> ExecutionResult)
      ensures this.log == log && this.outcome == outcome
    {
      this.log := log;
      this.outcome := outcome;
    }

    method Run(test: Test, timeout: nat) returns (result: ExecutionResult)
      modifies log
      ensures result == outcome(test, timeout)
      ensures log.events == old(log.events) + [SandboxRun(test, timeout)]
    {
      log.Record(SandboxRun(test, timeout));
      result := outcome(test, timeout);
    }
  }

  /** The progress counter shared by the workers of one phase. */
  class ProgressCounter {
    var value: nat

    constructor ()
      ensures value == 0
    {
      value := 0;
    }

    method Increment()
      modifies this
      ensures value == old(value) + 1
    {
      value := value + 1;
    }
  }

  /** A worker's output vector of testees. */
  class TesteeStorage {
    var items: seq<Testee>

    constructor ()
      ensures items == []
    {
      items := [];
    }

    method PushBack(testee: Testee)
      modifies this
      ensures items == old(items) + [testee]
    {
      items := items + [testee];
    }
  }

  /** Where a trace stands with respect to the instrumentation bracket: no test
      set up, a test set up, its sandbox run done, its testees queried. */
  datatype Phase = Idle | SetUp(test: Test) | Ran(test: Test) | Queried(test: Test)

  /** The legal moves: setup opens a bracket for one test, that test is run once
      in the sandbox, its testees may then be queried once, and cleanup of the
      same test closes the bracket. Any other event is illegal (`None`). */
  function Step(p: Phase, e: Event): Option<Phase> {
    match e
    case SetupInstrumentation(t) => if p == Idle then Some(SetUp(t)) else None
    case SandboxRun(t, _) => if p == SetUp(t) then Some(Ran(t)) else None
    case QueryTestees(t, _, _) => if p == Ran(t) then Some(Queried(t)) else None
    case CleanupInstrumentation(t) => if p == Ran(t) || p == Queried(t) then Some(Idle) else None
  }

  function Replay(events: seq<Event>, p: Phase): Option<Phase>
    decreases |events|
  {
    if events == [] then Some(p)
    else match Step(p, events[0])
      case None => None
      case Some(q) => Replay(events[1..], q)
  }

  /** A trace made only of complete, non-overlapping instrumentation brackets. */
  predicate Bracketed(events: seq<Event>) {
    Replay(events, Idle) == Some(Idle)
  }

  lemma {:induction false} ReplayAppend(a: seq<Event>, b: seq<Event>, p: Phase)
    ensures Replay(a + b, p) == match Replay(a, p) case None => None case Some(q) => Replay(b, q)
    decreases |a|
  {
    if a != [] {
      assert (a + b)[0] == a[0];
      assert (a + b)[1..] == a[1..] + b;
      match Step(p, a[0])
      case None =>
      case Some(q) => ReplayAppend(a[1..], b, q);
    } else {
      assert a + b == b;
    }
  }

  lemma BracketedConcat(a: seq<Event>, b: seq<Event>)
    requires Bracketed(a) && Bracketed(b)
    ensures Bracketed(a + b)
  {
    ReplayAppend(a, b, Idle);
  }

  /** The tests named by the events of one kind, in trace order. */
  function TestsOf(events: seq<Event>, kind: EventKind): seq<Test>
    decreases |events|
  {
    if events == [] then []
    else
      var last := events[|events| - 1];
      TestsOf(events[..|events| - 1], kind) + (if last.Kind() == kind then [last.test] else [])
  }

  lemma {:induction false} TestsOfAppend(a: seq<Event>, b: seq<Event>, kind: EventKind)
    ensures TestsOf(a + b, kind) == TestsOf(a, kind) + TestsOf(b, kind)
    decreases |b|
  {
    if b == [] {
      assert a + b == a;
    } else {
      var init := b[..|b| - 1];
      assert (a + b)[..|a + b| - 1] == a + init;
      assert (a + b)[|a + b| - 1] == b[|b| - 1];
      TestsOfAppend(a, init, kind);
    }
  }
}
