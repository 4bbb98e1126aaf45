# Pandora test harness, modelled in Dafny

Pandora is a small, self-hosted test harness written in C#. It has three classes:

- `TestResult` is the mutable record of one test run: its name, Passed flag, message, captured exception and elapsed time.
- `Tests` is the runner. `RunTest` allocates a result with `Passed = true`, hands it to a test body, and catches whatever the body throws. It then finalises the result along one of three paths: the body threw (`SetFailed`), the body returned having cleared `Passed` (only the time is recorded), or the body returned with `Passed` still true (`SetPassed`, which overwrites the message with `"Test Passed"`). `RunAll` runs every test body, in order, one result each.
- `TestReport` derives the total, passed and failed counts and the total time. `ToString(Detailed, onlyFails)` renders a title, four summary lines and, if detailed, one numbered block per result (only the failures when `onlyFails` is set).

The model has four modules:

- `TestResults` (`results.dfy`) holds the data model. `Snapshot` is the value of a result's five fields. `Outcome` is what a body does: `Returned(state)` or `Threw(state, error)`, where `state` holds the fields as the body left them. A body is a function `Snapshot -> Outcome`. `TestResult` is a class with the five fields.
- `Tests` (`tests.dfy`) holds the runner: `Finalise` specifies the three paths, and `RunTest`, `SetFailed` and `SetPassed` are methods that update a `TestResult` object field by field. `Run` specifies a whole run and `RunAll` is its loop. `Test1`–`Test3` are the sample bodies.
- `Reports` (`reports.dfy`) holds the counts, the total time and the rendering. The rendering is a sequence of line records (`Title`, `Summary(kind, n)`, `DescriptionHeader`, `Detail(ordinal, total, name, passed, time, message)`). `TestReport.Render` is the loop-based `ToString`, proved equal to the specification function `Rendering`.
- `ReportText` (`text.dfy`) gives each record the rows of text it prints, using the source's literal labels, including the `Mesage:` spelling. `NatToString` writes the numbers.

Durations are tick counts: natural numbers passed in by the caller.

## Model

| member | source | states |
|---|---|---|
| `TestResults.TestResult.constructor` | Tests.cs:15-22 | a new result has every field at its CLR default: empty name and message, Passed false, no error, zero time |
| `TestResults.TestResult.Store` | Tests.cs:136 | the body's writes to the object it was handed: afterwards the fields are exactly the state the body left |
| `Tests.Finalise` | Tests.cs:127-165 | the finalised result always has the elapsed time and the body's name. It passes exactly when the body returned with Passed still true. A throw sets the message to the exception's message and the error to the exception. An explicit failure is the body's state with only the time changed. A pass has message "Test Passed" and keeps the body's error |
| `Tests.SetFailed` | Tests.cs:153-159 | sets the time, message and error, clears Passed, and leaves the name as it was |
| `Tests.SetPassed` | Tests.cs:160-165 | sets the time, sets Passed, replaces the message with "Test Passed", and leaves the name and error as they were |
| `Tests.RunTest` | Tests.cs:127-151 | returns a fresh result equal to `Finalise` of the body's outcome on a new result with Passed true; no exception that the catch at Tests.cs:143 can catch escapes |
| `Tests.Run` | Tests.cs:117-122 | one result per body: the result sequence has the length of the test list |
| `Tests.RunAt` | Tests.cs:119-122 | result i is the finalised outcome of body i with its own elapsed time |
| `Tests.Isolation` | Tests.cs:119-122 | replacing one body, even by one that throws, changes no other result |
| `Tests.RunAll` | Tests.cs:106-125 | the report holds exactly `Run(tests, elapsed)`, so its total is the number of bodies |
| `Tests.SampleSuite` | Tests.cs:78-98 | with the three sample bodies: total 3, passed 1, failed 2. Test2 keeps its own message and has no error. Test3 carries the division-by-zero exception and its message. A fails-only detailed render ends with exactly the blocks [2 of 3] and [3 of 3] |
| `Tests.SampleFailureText` | Tests.cs:59-61 | the fails-only detailed sample report has two blocks, with the texts "[2 of 3]: Second test that should fail : Failed" and "[3 of 3]: Div by zero : Failed"; the second block's message row is "Mesage:" followed by the exception's message |
| `Reports.CountPassed` | Tests.cs:27 | the passed count never exceeds the number of results |
| `Reports.PassedPlusFailed` | Tests.cs:26-28 | passed and failed results, counted separately, add up to the number of results |
| `Reports.AllPassedIff` | Tests.cs:27 | the passed count equals the total exactly when every result passed |
| `Reports.NonePassedIff` | Tests.cs:27 | the passed count is zero exactly when no result passed |
| `Reports.CountPassedAppend` | Tests.cs:27 | the passed count of two concatenated sequences is the sum of their counts |
| `Reports.TotalTimeAppend` | Tests.cs:44-49 | the total time of two concatenated sequences is the sum of their totals |
| `Reports.TotalTimeCovers` | Tests.cs:44-49 | no single result's time exceeds the total time |
| `Reports.DetailsSound` | Tests.cs:55-62 | every detail line is the block of a selected result (any result, or a failed one under onlyFails), numbered by that result's 1-based position |
| `Reports.DetailsOrdered` | Tests.cs:55-62 | detail blocks appear in result order: their ordinals strictly increase |
| `Reports.DetailsComplete` | Tests.cs:55-62 | result i has a detail block if and only if `!onlyFails` or it failed |
| `Reports.DetailsUnfiltered` | Tests.cs:55-62 | without onlyFails there is one block per result, and block i belongs to result i |
| `Reports.DetailsCountFailures` | Tests.cs:57 | with onlyFails there are exactly as many blocks as failed results |
| `Reports.SummaryOnly` | Tests.cs:39-51 | a non-detailed render is exactly the title and the four summary lines (total, passed, failed, total time), contains no detail line, and does not depend on onlyFails |
| `Reports.DetailedRendering` | Tests.cs:39-64 | a detailed render is the header, the description header and then the detail blocks. The blocks come in result order, each belongs to a selected result, and each is labelled with that result's position out of the full total (DetailsComplete says which results have one) |
| `Reports.TestReport.constructor` | Tests.cs:32-35 | the report holds the given results in the given order |
| `Reports.TestReport.Passed` | Tests.cs:27 | at most the total, and equal to it exactly when every result passed |
| `Reports.TestReport.Failed` | Tests.cs:28 | `TotalTests - Passed` is between 0 and the total, and is the number of failed results |
| `Reports.TestReport.Render` | Tests.cs:37-65 | the two loops (summing the time, emitting the filtered blocks) and the early return produce exactly `Rendering(results, Detailed, onlyFails)` |
| `Reports.TestReport.RenderDefault` | Tests.cs:67-70 | the no-argument form is the render with `Detailed` and `onlyFails` both false: the header alone |
| `ReportText.NatToString` | Tests.cs:41-43 | an interpolated count is a non-empty string of decimal digits, one digit exactly for values below ten, with no leading zero |
| `ReportText.SummaryText` | Tests.cs:39-51 | the text of a summary render is five rows: "Pandora Testing Suite", then "Total Tests: ", "Passed Tests: ", "Failed Tests: " and "Total time: ", each followed by its figure in decimal |
| `ReportText.ParseNatToString` | Tests.cs:41-43 | reading back the decimal text of a number gives the number |
| `ReportText.NatToStringInjective` | Tests.cs:59 | distinct numbers have distinct decimal texts, so a block's "[i of n]" label tells which result it shows |

## Left out

- Discovery by reflection (`GetMethods`, the `Test` name prefix, `CreateDelegate`) is left out because it is runtime introspection. `RunAll` takes an explicit ordered list of bodies instead. .NET does not define the order in which `GetMethods` returns methods. So the order [Test1, Test2, Test3] in `Tests.Samples` is the model's choice, and so are the [2 of 3] and [3 of 3] labels in `Tests.SampleSuite`; reflection does not guarantee that order.
- The stopwatch is left out. The elapsed time of each run is an opaque tick count that the caller passes in (`elapsed` in `RunTest` and `RunAll`).
- The CLR exception machinery is left out. A body that throws is the outcome `Threw(state, exception)`. `Test3`'s integer division by zero is modelled as that outcome, carrying `System.DivideByZeroException` and the runtime's message "Attempted to divide by zero.". That message comes from the .NET runtime, not from this repository.
- Test bodies are modelled as functions that always return or throw and have no effect beyond their own record. Three things a real `Action<TestResult>` can do are therefore not modelled. A body that never returns would stop `RunAll` for good, but `Tests.Run` always produces every result. A fault that `catch (Exception e)` cannot handle, such as a stack overflow, ends the process instead of becoming a failed result. A body can write static state that a later body reads, or keep its `TestResult` and write to it later. `Tests.RunAt`, `Tests.Isolation` and `Tests.RunAll` rely on these restrictions. The sample bodies `Test1`–`Test3` meet them.
- Exceptions other than the body's are left out, for example an overflow while summing `TimeSpan` values. Durations are unbounded naturals, and the 32-bit counts cannot overflow for any array .NET can allocate.
- `TimeSpan` and `StringBuilder` formatting is left out. `ReportText` prints a duration as its tick count rather than in TimeSpan's format. Each record is given as rows of text without line terminators; `Environment.NewLine` is not modelled.
- C# `null` strings are modelled as the empty string, since interpolation prints both the same way. A null `Exception` is `None`.
- The default arguments of `SetFailed` (`"Test Failed"`, `null`) are left out, because the only caller always passes both.
- `TestReport` keeps the finalised result values, not references to `TestResult` objects. Nothing in this repository writes to a result after `RunTest` returns, so the two are the same. `RunAll` fills an array of these values, index by index.
- A body's writes to its result object are modelled as one `Store` of the state the body left. The order of its individual assignments is not modelled, since nothing else can observe the object while the body runs.
- `Tests.Finalise`: a throw's message is whatever the exception carries. The source does not guarantee that it is non-empty, so this is not claimed in general; `Tests.SampleSuite` shows it for the division by zero.
