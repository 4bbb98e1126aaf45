/**
 * The record of one test execution (Pandora's TestResult) and the outcome a
 * test body produces when the runner hands it that record.
 *
 * Durations are counted in ticks (a natural number), the unit a TimeSpan is
 * built on. C# null strings are modelled as "", which is how string
 * interpolation renders them; a null Exception is None.
 */
module TestResults {

  datatype Option<+T> = None | Some(value: T)

  /** A CLR exception as far as the harness looks at it: its type and its Message. */
  datatype Exception = Exception(typeName: string, message: string)

  /** The five fields of a TestResult at one moment. */
  datatype Snapshot = Snapshot(
    testName: string,
    passed: bool,
    message: string,
    error: Option<Exception>,
    testTime: nat)

  /**
   * What a test body does to the record it is handed. In both cases `state`
   * holds the fields as the body left them: at its return, or at the point the
   * exception escaped.
   */
  datatype Outcome =
    | Returned(state: Snapshot)
    | Threw(state: Snapshot, error: Exception)

  /** A test body (an Action<TestResult>), from the record it receives to its outcome. */
  type Body = Snapshot -> Outcome

  /** The mutable result object that RunTest allocates, the body fills in and the runner finalises. */
  class TestResult {
    var testName: string
    var passed: bool
    var message: string
    var error: Option<Exception>
    var testTime: nat

    /** `new TestResult()`: every field at its CLR default (Passed is false). */
    constructor ()
      ensures Value() == Snapshot("", false, "", None, 0)
    {
      testName, passed, message, error, testTime := "", false, "", None, 0;
    }

    /** The current contents of the fields. */
    function Value(): Snapshot
      reads this
    {
      Snapshot(testName, passed, message, error, testTime)
    }

    /** Writes all five fields at once: the net effect of a body's assignments to the object. */
    method Store(s: Snapshot)
      modifies this
      ensures Value() == s
    {
      testName, passed, message, error, testTime := s.testName, s.passed, s.message, s.error, s.testTime;
    }
  }
}
