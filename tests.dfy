/**
 * Pandora's runner (the static class Tests): RunTest runs one body in a
 * fault-isolation boundary and finalises its result, RunAll runs an ordered
 * list of bodies, and Test1 to Test3 are the three sample bodies.
 *
 * The elapsed time of each run is a parameter (a tick count), and the test
 * list is given explicitly instead of being discovered by reflection.
 */
module Tests {
  import opened TestResults
  import opened Reports
  import opened ReportText

  /** The message a passing result always ends with. */
  const PassedMessage := "Test Passed"

  /** What RunTest hands the body: a new TestResult with Passed set to true. */
  const Initial := Snapshot("", true, "", None, 0)

  /**
   * The finalised result of a body's outcome, `elapsed` ticks after the
   * stopwatch started: one of the three paths of RunTest.
   */
  function Finalise(o: Outcome, elapsed: nat): (r: Snapshot)
    // the harness records the time on every path, and never touches the name
    ensures r.testTime == elapsed
    ensures r.testName == o.state.testName
    // a result passes exactly when the body returned and left Passed true
    ensures r.passed <==> o.Returned? && o.state.passed
    // a thrown exception becomes the message and the error
    ensures o.Threw? ==> r.message == o.error.message && r.error == Some(o.error)
    // an explicit failure is kept as the body left it, apart from the time
    ensures o.Returned? && !o.state.passed ==> r == o.state.(testTime := elapsed)
    // a pass keeps the body's name and error, and its message is replaced
    ensures r.passed ==> r.message == PassedMessage && r.error == o.state.error
  {
    match o
    case Threw(s, e) => s.(testTime := elapsed, message := e.message, error := Some(e), passed := false)
    case Returned(s) =>
      if !s.passed then s.(testTime := elapsed)
      else s.(testTime := elapsed, passed := true, message := PassedMessage)
  }

  /** `SetFailed(res, time, message, error)`: the exception path. */
  method SetFailed(res: TestResult, time: nat, message: string, error: Exception)
    modifies res
    ensures res.Value() == old(res.Value()).(testTime := time, message := message, error := Some(error), passed := false)
  {
    res.testTime := time;
    res.message := message;
    res.error := Some(error);
    res.passed := false;
  }

  /** `SetPassed(res, time)`: the success path. */
  method SetPassed(res: TestResult, time: nat)
    modifies res
    ensures res.Value() == old(res.Value()).(testTime := time, passed := true, message := PassedMessage)
  {
    res.testTime := time;
    res.passed := true;
    res.message := PassedMessage;
  }

  /** Runs one body on a new result and finalises it; no exception the body throws escapes. */
  method RunTest(test: Body, elapsed: nat) returns (result: TestResult)
    ensures fresh(result)
    ensures result.Value() == Finalise(test(Initial), elapsed)
  {
    result := new TestResult();
    result.passed := true;
    var outcome := test(result.Value());
    match outcome
    case Threw(state, e) =>
      result.Store(state);
      SetFailed(result, elapsed, e.message, e);
    case Returned(state) =>
      result.Store(state);
      if !result.passed {
        result.testTime := elapsed;
        return;
      }
      SetPassed(result, elapsed);
  }

  /** The results of running the bodies in order, the i-th body after elapsed[i] ticks. */
  function Run(tests: seq<Body>, elapsed: seq<nat>): (rs: seq<Snapshot>)
    requires |elapsed| == |tests|
    ensures |rs| == |tests|
  {
    if tests == [] then []
    else Run(tests[..|tests| - 1], elapsed[..|elapsed| - 1])
         + [Finalise(tests[|tests| - 1](Initial), elapsed[|elapsed| - 1])]
  }

  /** The i-th result depends on the i-th body and its time alone. */
  lemma {:induction false} RunAt(tests: seq<Body>, elapsed: seq<nat>, i: nat)
    requires |elapsed| == |tests| && i < |tests|
    ensures Run(tests, elapsed)[i] == Finalise(tests[i](Initial), elapsed[i])
  {
    if i < |tests| - 1 {
      RunAt(tests[..|tests| - 1], elapsed[..|elapsed| - 1], i);
    }
  }

  /** Replacing one body, even by one that throws, leaves every other result as it was. */
  lemma Isolation(tests: seq<Body>, elapsed: seq<nat>, j: nat, other: Body, i: nat)
    requires |elapsed| == |tests| && j < |tests| && i < |tests| && i != j
    ensures Run(tests[j := other], elapsed)[i] == Run(tests, elapsed)[i]
  {
    RunAt(tests, elapsed, i);
    RunAt(tests[j := other], elapsed, i);
  }

  /** `RunAll`: one result per body, in the order of the bodies. */
  method RunAll(tests: seq<Body>, elapsed: seq<nat>) returns (report: TestReport)
    requires |elapsed| == |tests|
    ensures report.testResults == Run(tests, elapsed)
    ensures report.TotalTests() == |tests|
  {
    var results := new Snapshot[|tests|];
    for i := 0 to |tests|
      invariant results[..i] == Run(tests[..i], elapsed[..i])
    {
      var result := RunTest(tests[i], elapsed[i]);
      results[i] := result.Value();
      assert tests[..i + 1][..i] == tests[..i];
      assert elapsed[..i + 1][..i] == elapsed[..i];
    }
    assert tests[..|tests|] == tests && elapsed[..|elapsed|] == elapsed;
    report := new TestReport(results[..]);
  }

  /** The exception `1 / zero` raises. */
  const DivideByZero := Exception("System.DivideByZeroException", "Attempted to divide by zero.")

  function Test1(res: Snapshot): Outcome
  {
    Returned(res.(testName := "First test should pass"))
  }

  function Test2(res: Snapshot): Outcome
  {
    var res := res.(testName := "Second test that should fail");
    Returned(res.(passed := 1337 == 228, message := "Fails as it should"))
  }

  function Test3(res: Snapshot): Outcome
  {
    var res := res.(testName := "Div by zero");
    var zero := 0;
    if zero == 0 then Threw(res, DivideByZero) else Returned(res)
  }

  /** The sample bodies, in declaration order. */
  const Samples: seq<Body> := [Test1, Test2, Test3]

  /**
   * The sample suite: one pass, one explicit failure, one fault; a fails-only
   * detailed report shows exactly the blocks [2 of 3] and [3 of 3].
   */
  lemma SampleSuite(elapsed: seq<nat>)
    requires |elapsed| == 3
    ensures var rs := Run(Samples, elapsed);
      && |rs| == 3
      && CountPassed(rs) == 1 && |rs| - CountPassed(rs) == 2
      && rs[0].passed && rs[0].message == PassedMessage
      && !rs[1].passed && rs[1].message == "Fails as it should" && rs[1].error == None
      && !rs[2].passed && rs[2].error == Some(DivideByZero) && rs[2].message == DivideByZero.message
      && Rendering(rs, true, true)[5..] ==
           [DescriptionHeader,
            Detail(2, 3, "Second test that should fail", false, elapsed[1], "Fails as it should"),
            Detail(3, 3, "Div by zero", false, elapsed[2], DivideByZero.message)]
  {
    var rs := Run(Samples, elapsed);
    RunAt(Samples, elapsed, 0);
    RunAt(Samples, elapsed, 1);
    RunAt(Samples, elapsed, 2);
    assert rs == [rs[0], rs[1], rs[2]];
    assert rs[..2] == [rs[0], rs[1]] && rs[..1] == [rs[0]] && rs[..1][..0] == [];
    assert CountPassed(rs[..1]) == 1;
    assert CountPassed(rs[..2]) == 1;
    assert Details(rs, true, 1) == [];
    assert Details(rs, true, 2) == [Block(rs, 1)];
    assert Details(rs, true, 3) == [Block(rs, 1), Block(rs, 2)];
  }

  /** The text of the fails-only detailed sample report: the blocks are labelled [2 of 3] and [3 of 3]. */
  lemma SampleFailureText(elapsed: seq<nat>)
    requires |elapsed| == 3
    ensures var blocks := Rendering(Run(Samples, elapsed), true, true)[6..];
      && |blocks| == 2
      && LineText(blocks[0])[0] == "[2 of 3]: " + "Second test that should fail" + " : Failed"
      && LineText(blocks[1])[0] == "[3 of 3]: " + "Div by zero" + " : Failed"
      && LineText(blocks[1])[2] == "Mesage:" + DivideByZero.message
  {
    SampleSuite(elapsed);
    var out := Rendering(Run(Samples, elapsed), true, true);
    var b0 := Detail(2, 3, "Second test that should fail", false, elapsed[1], "Fails as it should");
    var b1 := Detail(3, 3, "Div by zero", false, elapsed[2], DivideByZero.message);
    assert out[5..] == [DescriptionHeader, b0, b1];
    assert out[6..] == [b0, b1];
    assert NatToString(2) == "2" && NatToString(3) == "3";
    assert "[" + "2" + " of " + "3" + "]: " == "[2 of 3]: " && "[" + "3" + " of " + "3" + "]: " == "[3 of 3]: ";
  }
}
