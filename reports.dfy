/**
 * Pandora's TestReport: the counts and total time derived from an ordered
 * sequence of finalised results, and the report it renders. The rendered
 * report is a sequence of line records; module ReportText spells each record
 * out with the source's literal labels.
 */
module Reports {
  import opened TestResults

  /** How many results passed (LINQ `Count(t => t.Passed)`). */
  function CountPassed(rs: seq<Snapshot>): (n: nat)
    ensures n <= |rs|
  {
    if rs == [] then 0
    else CountPassed(rs[..|rs| - 1]) + (if rs[|rs| - 1].passed then 1 else 0)
  }

  /** How many results failed, counted on their own. */
  function CountFailed(rs: seq<Snapshot>): nat
  {
    if rs == [] then 0
    else CountFailed(rs[..|rs| - 1]) + (if rs[|rs| - 1].passed then 0 else 1)
  }

  /** The sum of every result's TestTime; zero for no results. */
  function TotalTime(rs: seq<Snapshot>): nat
  {
    if rs == [] then 0 else TotalTime(rs[..|rs| - 1]) + rs[|rs| - 1].testTime
  }

  lemma {:induction false} PassedPlusFailed(rs: seq<Snapshot>)
    ensures CountPassed(rs) + CountFailed(rs) == |rs|
  {
    if rs != [] { PassedPlusFailed(rs[..|rs| - 1]); }
  }

  /** Every result passed exactly when the passed count is the number of results. */
  lemma {:induction false} AllPassedIff(rs: seq<Snapshot>)
    ensures CountPassed(rs) == |rs| <==> forall i :: 0 <= i < |rs| ==> rs[i].passed
  {
    if rs != [] {
      var init := rs[..|rs| - 1];
      AllPassedIff(init);
      assert forall i :: 0 <= i < |init| ==> init[i] == rs[i];
    }
  }

  /** No result passed exactly when the passed count is zero. */
  lemma {:induction false} NonePassedIff(rs: seq<Snapshot>)
    ensures CountPassed(rs) == 0 <==> forall i :: 0 <= i < |rs| ==> !rs[i].passed
  {
    if rs != [] {
      var init := rs[..|rs| - 1];
      NonePassedIff(init);
      assert forall i :: 0 <= i < |init| ==> init[i] == rs[i];
    }
  }

  lemma {:induction false} CountPassedAppend(a: seq<Snapshot>, b: seq<Snapshot>)
    ensures CountPassed(a + b) == CountPassed(a) + CountPassed(b)
  {
    if b != [] {
      assert (a + b)[..|a + b| - 1] == a + b[..|b| - 1];
      CountPassedAppend(a, b[..|b| - 1]);
    } else {
      assert a + b == a;
    }
  }

  lemma {:induction false} TotalTimeAppend(a: seq<Snapshot>, b: seq<Snapshot>)
    ensures TotalTime(a + b) == TotalTime(a) + TotalTime(b)
  {
    if b != [] {
      assert (a + b)[..|a + b| - 1] == a + b[..|b| - 1];
      TotalTimeAppend(a, b[..|b| - 1]);
    } else {
      assert a + b == a;
    }
  }

  /** No single result's time exceeds the total. */
  lemma {:induction false} TotalTimeCovers(rs: seq<Snapshot>, i: nat)
    requires i < |rs|
    ensures rs[i].testTime <= TotalTime(rs)
  {
    if i < |rs| - 1 {
      TotalTimeCovers(rs[..|rs| - 1], i);
    }
  }

  /** The four figures of the report header. */
  datatype SummaryKind = TotalTestsLine | PassedTestsLine | FailedTestsLine | TotalTimeLine

  /** One record of the rendered report. */
  datatype Line =
    | Title
    | Summary(kind: SummaryKind, value: nat)
    | DescriptionHeader
    | Detail(ordinal: nat, total: nat, testName: string, passed: bool, testTime: nat, message: string)

  /** Whether result i gets a detail block: all of them, or only the failures. */
  predicate Selected(rs: seq<Snapshot>, onlyFails: bool, i: nat)
    requires i < |rs|
  {
    !onlyFails || !rs[i].passed
  }

  /** The detail block of result i, numbered by its position in the whole sequence. */
  function Block(rs: seq<Snapshot>, i: nat): Line
    requires i < |rs|
  {
    Detail(i + 1, |rs|, rs[i].testName, rs[i].passed, rs[i].testTime, rs[i].message)
  }

  /** The title and the four summary lines. */
  function Header(rs: seq<Snapshot>): seq<Line>
  {
    [Title,
     Summary(TotalTestsLine, |rs|),
     Summary(PassedTestsLine, CountPassed(rs)),
     Summary(FailedTestsLine, |rs| - CountPassed(rs)),
     Summary(TotalTimeLine, TotalTime(rs))]
  }

  /** The detail blocks of the first k results, in order. */
  function Details(rs: seq<Snapshot>, onlyFails: bool, k: nat): seq<Line>
    requires k <= |rs|
  {
    if k == 0 then []
    else Details(rs, onlyFails, k - 1) + (if Selected(rs, onlyFails, k - 1) then [Block(rs, k - 1)] else [])
  }

  /** The whole report, as `ToString(detailed, onlyFails)` builds it. */
  function Rendering(rs: seq<Snapshot>, detailed: bool, onlyFails: bool): seq<Line>
  {
    Header(rs) + if detailed then [DescriptionHeader] + Details(rs, onlyFails, |rs|) else []
  }

  /** Every detail line is the block of a selected result among the first k. */
  lemma {:induction false} DetailsSound(rs: seq<Snapshot>, onlyFails: bool, k: nat)
    requires k <= |rs|
    ensures forall p :: 0 <= p < |Details(rs, onlyFails, k)| ==>
      var d := Details(rs, onlyFails, k)[p];
      d.Detail? && 1 <= d.ordinal <= k &&
      Selected(rs, onlyFails, d.ordinal - 1) && d == Block(rs, d.ordinal - 1)
  {
    if k > 0 { DetailsSound(rs, onlyFails, k - 1); }
  }

  /** Detail blocks appear in the order of the results: ordinals strictly increase. */
  lemma {:induction false} DetailsOrdered(rs: seq<Snapshot>, onlyFails: bool, k: nat)
    requires k <= |rs|
    ensures forall p, q :: 0 <= p < q < |Details(rs, onlyFails, k)| ==>
      Details(rs, onlyFails, k)[p].Detail? && Details(rs, onlyFails, k)[q].Detail? &&
      Details(rs, onlyFails, k)[p].ordinal < Details(rs, onlyFails, k)[q].ordinal
  {
    DetailsSound(rs, onlyFails, k);
    if k > 0 {
      DetailsOrdered(rs, onlyFails, k - 1);
      DetailsSound(rs, onlyFails, k - 1);
    }
  }

  /** Result i (among the first k) has a block exactly when it is selected. */
  lemma {:induction false} DetailsComplete(rs: seq<Snapshot>, onlyFails: bool, k: nat)
    requires k <= |rs|
    ensures forall i :: 0 <= i < k ==> (Block(rs, i) in Details(rs, onlyFails, k) <==> Selected(rs, onlyFails, i))
  {
    if k > 0 {
      DetailsComplete(rs, onlyFails, k - 1);
      DetailsSound(rs, onlyFails, k - 1);
      var prev := Details(rs, onlyFails, k - 1);
      assert forall p :: 0 <= p < |prev| ==> prev[p].ordinal < k;
    }
  }

  /** Without filtering, block i is the i-th detail line. */
  lemma {:induction false} DetailsUnfiltered(rs: seq<Snapshot>, k: nat)
    requires k <= |rs|
    ensures |Details(rs, false, k)| == k
    ensures forall i :: 0 <= i < k ==> Details(rs, false, k)[i] == Block(rs, i)
  {
    if k > 0 { DetailsUnfiltered(rs, k - 1); }
  }

  /** With filtering, there are as many blocks as failed results. */
  lemma {:induction false} DetailsCountFailures(rs: seq<Snapshot>, k: nat)
    requires k <= |rs|
    ensures |Details(rs, true, k)| == CountFailed(rs[..k])
  {
    if k > 0 {
      DetailsCountFailures(rs, k - 1);
      assert rs[..k][..k - 1] == rs[..k - 1];
    }
  }

  /** A summary render is the title and the four summary lines, whatever onlyFails is. */
  lemma SummaryOnly(rs: seq<Snapshot>, onlyFails: bool)
    ensures Rendering(rs, false, onlyFails) == Header(rs) == Rendering(rs, false, !onlyFails)
    ensures |Rendering(rs, false, onlyFails)| == 5
    ensures forall p :: 0 <= p < |Rendering(rs, false, onlyFails)| ==> !Rendering(rs, false, onlyFails)[p].Detail?
  {
  }

  /**
   * A detailed render is the header and the description header, then the
   * detail blocks, in result order, each the block of a selected result and
   * labelled with that result's position out of the full total. Which results
   * have a block is DetailsComplete.
   */
  lemma DetailedRendering(rs: seq<Snapshot>, onlyFails: bool)
    ensures Rendering(rs, true, onlyFails) == Header(rs) + [DescriptionHeader] + Details(rs, onlyFails, |rs|)
    ensures var blocks := Details(rs, onlyFails, |rs|);
      && (forall p :: 0 <= p < |blocks| ==>
            blocks[p].Detail? && 1 <= blocks[p].ordinal <= |rs| && blocks[p].total == |rs| &&
            Selected(rs, onlyFails, blocks[p].ordinal - 1) && blocks[p] == Block(rs, blocks[p].ordinal - 1))
      && (forall p, q :: 0 <= p < q < |blocks| ==>
            blocks[p].Detail? && blocks[q].Detail? && blocks[p].ordinal < blocks[q].ordinal)
  {
    DetailsSound(rs, onlyFails, |rs|);
    DetailsOrdered(rs, onlyFails, |rs|);
  }

  /** Pandora's TestReport: a read-only view of the results, in execution order. */
  class TestReport {
    const testResults: seq<Snapshot>

    constructor (res: seq<Snapshot>)
      ensures testResults == res
    {
      testResults := res;
    }

    function TotalTests(): nat
    {
      |testResults|
    }

    function Passed(): (n: nat)
      ensures n <= TotalTests()
      ensures n == TotalTests() <==> forall i :: 0 <= i < |testResults| ==> testResults[i].passed
    {
      AllPassedIff(testResults);
      CountPassed(testResults)
    }

    /** `TotalTests - Passed`: never negative, and the number of failing results. */
    function Failed(): (n: int)
      ensures 0 <= n <= TotalTests()
      ensures Passed() + n == TotalTests()
      ensures n == CountFailed(testResults)
    {
      PassedPlusFailed(testResults);
      TotalTests() - Passed()
    }

    /** `ToString(Detailed, onlyFails)`: header, then the detail blocks when detailed. */
    method Render(detailed: bool, onlyFails: bool) returns (lines: seq<Line>)
      ensures lines == Rendering(testResults, detailed, onlyFails)
    {
      lines := [Title, Summary(TotalTestsLine, TotalTests()), Summary(PassedTestsLine, Passed()),
                Summary(FailedTestsLine, Failed())];
      var totalTime := 0;
      for i := 0 to |testResults|
        invariant totalTime == TotalTime(testResults[..i])
      {
        assert testResults[..i + 1][..i] == testResults[..i];
        totalTime := totalTime + testResults[i].testTime;
      }
      assert testResults[..|testResults|] == testResults;
      lines := lines + [Summary(TotalTimeLine, totalTime)];

      if !detailed { return; }

      lines := lines + [DescriptionHeader];
      for i := 0 to |testResults|
        invariant lines == Header(testResults) + [DescriptionHeader] + Details(testResults, onlyFails, i)
      {
        if onlyFails && testResults[i].passed { continue; }
        var r := testResults[i];
        lines := lines + [Detail(i + 1, |testResults|, r.testName, r.passed, r.testTime, r.message)];
      }
    }

    /** `ToString()`: the summary render. */
    method RenderDefault() returns (lines: seq<Line>)
      ensures lines == Rendering(testResults, false, false)
      ensures lines == Header(testResults)
    {
      lines := Render(false, false);
    }
  }
}
