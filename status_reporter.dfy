/**
 * The listener that turns JUnit 5 execution events into the notifications
 * of the Eclipse test runner: test started, test failed and test ended, in
 * a fixed order and with fixed name prefixes.
 */
module StatusReporter {
  import opened Wrappers

  // MessageIds
  const IGNORED_TEST_PREFIX := "@Ignore: "
  const ASSUMPTION_FAILED_TEST_PREFIX := "@AssumptionFailure: "
  const TEST_FAILED := "%FAILED "
  const TEST_ERROR := "%ERROR  "

  /** A test as the launcher identifies it; only its display name is used. */
  datatype TestIdentifier = TestIdentifier(displayName: string)

  /** The cause of a failure: whether it is an AssertionError, and its printed stack trace. */
  datatype Throwable = Throwable(isAssertionError: bool, stackTrace: string)

  datatype ExecutionStatus = Successful | Aborted | Failed

  datatype ExecutionResult = ExecutionResult(status: ExecutionStatus, throwable: Option<Throwable>)

  /** TestReferenceFailure: the failing test's name, the failure kind and the trace. */
  datatype Failure = Failure(testName: string, failureKind: string, trace: string)

  datatype Notification = TestStarted(name: string) | TestFailed(failure: Failure) | TestEnded(name: string)

  /** getFailureType: a failure when the cause is an assertion, an error otherwise. */
  function FailureType(result: ExecutionResult): (kind: string)
    ensures kind == TEST_FAILED || kind == TEST_ERROR
    ensures kind == TEST_FAILED <==> result.throwable.Some? && result.throwable.value.isAssertionError
  {
    if result.throwable.Some? && result.throwable.value.isAssertionError then TEST_FAILED else TEST_ERROR
  }

  /** getTrace: the printed stack trace, or the empty string without a cause. */
  function Trace(cause: Option<Throwable>): (trace: string)
    ensures cause.None? ==> trace == ""
    ensures cause.Some? ==> trace == cause.value.stackTrace
  {
    match cause
    case None => ""
    case Some(t) => t.stackTrace
  }

  /** createFailure: the failure reported under the given name, its kind and trace taken from the result. */
  function CreateFailure(testName: string, result: ExecutionResult): (f: Failure)
    ensures f.testName == testName
    ensures f.failureKind == TEST_FAILED <==> result.throwable.Some? && result.throwable.value.isAssertionError
    ensures f.failureKind == TEST_FAILED || f.failureKind == TEST_ERROR
    ensures result.throwable.None? ==> f.trace == ""
  {
    Failure(testName, FailureType(result), Trace(result.throwable))
  }

  /** String concatenation of a reason that may be null: Java prints a null as "null". */
  function ReasonText(reason: Option<string>): (text: string)
    ensures reason.None? ==> text == "null"
    ensures reason.Some? ==> text == reason.value
  {
    match reason
    case None => "null"
    case Some(r) => r
  }

  /** What executionStarted notifies: the test started, under its display name. */
  function StartedNotifications(id: TestIdentifier): (ns: seq<Notification>)
    ensures |ns| == 1 && ns[0] == TestStarted(id.displayName)
  {
    [TestStarted(id.displayName)]
  }

  /** What executionSkipped notifies: started under the ignored name with the reason, then ended. */
  function SkippedNotifications(id: TestIdentifier, reason: Option<string>): (ns: seq<Notification>)
    ensures |ns| == 2
    ensures reason.Some? ==> ns[0] == TestStarted(IGNORED_TEST_PREFIX + id.displayName + "[" + reason.value + "]")
    ensures reason.None? ==> ns[0] == TestStarted(IGNORED_TEST_PREFIX + id.displayName + "[null]")
    ensures ns[1] == TestEnded(id.displayName)
  {
    var name := IGNORED_TEST_PREFIX + id.displayName + "[" + ReasonText(reason) + "]";
    assert reason.None? ==> name == IGNORED_TEST_PREFIX + id.displayName + "[null]";
    [TestStarted(name), TestEnded(id.displayName)]
  }

  /**
   * What executionFinished notifies: for an aborted test a failure under the
   * assumption-failed name, for a failed test a failure under its own name,
   * nothing for a successful one; then, always last, the test ended.
   */
  function FinishedNotifications(id: TestIdentifier, result: ExecutionResult): (ns: seq<Notification>)
    ensures |ns| == if result.status == Successful then 1 else 2
    ensures ns[|ns| - 1] == TestEnded(id.displayName)
    ensures forall k :: 0 <= k < |ns| - 1 ==> ns[k].TestFailed?
    ensures result.status == Aborted ==> ns[0] == TestFailed(Failure(ASSUMPTION_FAILED_TEST_PREFIX + id.displayName, FailureType(result), Trace(result.throwable)))
    ensures result.status == Failed ==> ns[0] == TestFailed(Failure(id.displayName, FailureType(result), Trace(result.throwable)))
  {
    match result.status
    case Aborted => [TestFailed(CreateFailure(ASSUMPTION_FAILED_TEST_PREFIX + id.displayName, result)), TestEnded(id.displayName)]
    case Failed => [TestFailed(CreateFailure(id.displayName, result)), TestEnded(id.displayName)]
    case Successful => [TestEnded(id.displayName)]
  }

  /** The runner's receiver, as the log of the notifications it has been sent. */
  class Receiver {
    var log: seq<Notification>

    constructor ()
      ensures log == []
    {
      log := [];
    }

    method NotifyTestStarted(name: string)
      modifies this
      ensures log == old(log) + [TestStarted(name)]
    {
      log := log + [TestStarted(name)];
    }

    method NotifyTestFailed(failure: Failure)
      modifies this
      ensures log == old(log) + [TestFailed(failure)]
    {
      log := log + [TestFailed(failure)];
    }

    method NotifyTestEnded(name: string)
      modifies this
      ensures log == old(log) + [TestEnded(name)]
    {
      log := log + [TestEnded(name)];
    }
  }

  class Reporter {
    const receiver: Receiver

    constructor (receiver: Receiver)
      ensures this.receiver == receiver
    {
      this.receiver := receiver;
    }

    method ExecutionStarted(id: TestIdentifier)
      modifies receiver
      ensures receiver.log == old(receiver.log) + StartedNotifications(id)
    {
      receiver.NotifyTestStarted(id.displayName);
    }

    method ExecutionSkipped(id: TestIdentifier, reason: Option<string>)
      modifies receiver
      ensures receiver.log == old(receiver.log) + SkippedNotifications(id, reason)
    {
      receiver.NotifyTestStarted(IGNORED_TEST_PREFIX + id.displayName + "[" + ReasonText(reason) + "]");
      receiver.NotifyTestEnded(id.displayName);
    }

    method ExecutionFinished(id: TestIdentifier, result: ExecutionResult)
      modifies receiver
      ensures receiver.log == old(receiver.log) + FinishedNotifications(id, result)
    {
      if result.status == Aborted {
        var testName := ASSUMPTION_FAILED_TEST_PREFIX + id.displayName;
        receiver.NotifyTestFailed(CreateFailure(testName, result));
      } else if result.status == Failed {
        receiver.NotifyTestFailed(CreateFailure(id.displayName, result));
      }
      receiver.NotifyTestEnded(id.displayName);
    }
  }

  /** How many notifications in the log say that a test started or that it ended. */
  function Count(log: seq<Notification>, started: bool): nat {
    if log == [] then 0
    else (if (started && log[0].TestStarted?) || (!started && log[0].TestEnded?) then 1 else 0) + Count(log[1..], started)
  }

  lemma {:induction false} CountConcat(a: seq<Notification>, b: seq<Notification>, started: bool)
    ensures Count(a + b, started) == Count(a, started) + Count(b, started)
  {
    if a == [] {
      assert a + b == b;
    } else {
      assert (a + b)[1..] == a[1..] + b;
      CountConcat(a[1..], b, started);
    }
  }

  /**
   * A test the launcher runs is reported started once and ended once; a
   * skipped test too, so the runner sees as many ends as starts.
   */
  lemma StartedAndEndedOnce(id: TestIdentifier, result: ExecutionResult, reason: Option<string>)
    ensures Count(StartedNotifications(id) + FinishedNotifications(id, result), true) == 1
    ensures Count(StartedNotifications(id) + FinishedNotifications(id, result), false) == 1
    ensures Count(SkippedNotifications(id, reason), true) == 1 && Count(SkippedNotifications(id, reason), false) == 1
  {
    var started, finished, skipped := StartedNotifications(id), FinishedNotifications(id, result), SkippedNotifications(id, reason);
    CountConcat(started, finished, true);
    CountConcat(started, finished, false);
    assert started[1..] == [];
    assert skipped[1..][1..] == [];
    if result.status == Successful {
      assert finished[1..] == [];
    } else {
      assert finished[1..][1..] == [];
    }
  }
}
