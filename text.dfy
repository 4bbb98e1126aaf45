/**
 * The text of each report record, with the labels the report prints. Counts
 * and ordinals are written in decimal; a duration is written as its tick
 * count, standing in for TimeSpan's own format. Each record gives the text
 * rows it occupies, without line terminators.
 */
module ReportText {
  import opened Reports

  function Digit(d: nat): (c: char)
    requires d < 10
    ensures '0' <= c <= '9'
  {
    ('0' as int + d) as char
  }

  predicate IsDecimal(s: string)
  {
    |s| > 0 && forall i :: 0 <= i < |s| ==> '0' <= s[i] <= '9'
  }

  /** The decimal form of n, as string interpolation writes an int. */
  function NatToString(n: nat): (s: string)
    ensures IsDecimal(s)
    ensures n < 10 <==> |s| == 1
    ensures n > 0 ==> s[0] != '0'
  {
    if n < 10 then [Digit(n)] else NatToString(n / 10) + [Digit(n % 10)]
  }

  /** The value of a decimal string: the inverse of NatToString. */
  function ParseNat(s: string): nat
    requires IsDecimal(s)
  {
    var d := s[|s| - 1] as int - '0' as int;
    if |s| == 1 then d else ParseNat(s[..|s| - 1]) * 10 + d
  }

  lemma {:induction false} ParseNatToString(n: nat)
    ensures ParseNat(NatToString(n)) == n
  {
    if n >= 10 {
      ParseNatToString(n / 10);
      var s := NatToString(n);
      assert s[..|s| - 1] == NatToString(n / 10);
    }
  }

  /** Decimal forms of distinct numbers differ, so ordinals in the text identify results. */
  lemma NatToStringInjective(m: nat, n: nat)
    requires NatToString(m) == NatToString(n)
    ensures m == n
  {
    ParseNatToString(m);
    ParseNatToString(n);
  }

  function PassLabel(passed: bool): string
  {
    if passed then "Passed" else "Failed"
  }

  /** The text of one record. */
  function LineText(l: Line): seq<string>
  {
    match l
    case Title => ["Pandora Testing Suite"]
    case Summary(TotalTestsLine, n) => ["Total Tests: " + NatToString(n)]
    case Summary(PassedTestsLine, n) => ["Passed Tests: " + NatToString(n)]
    case Summary(FailedTestsLine, n) => ["Failed Tests: " + NatToString(n)]
    case Summary(TotalTimeLine, n) => ["Total time: " + NatToString(n)]
    case DescriptionHeader => ["", "Test Description: "]
    case Detail(ordinal, total, name, passed, time, message) =>
      ["[" + NatToString(ordinal) + " of " + NatToString(total) + "]: " + name + " : " + PassLabel(passed),
       "Time:" + NatToString(time),
       "Mesage:" + message, "", ""]
  }

  /** The text of a whole report. */
  function Text(lines: seq<Line>): seq<string>
  {
    if lines == [] then [] else Text(lines[..|lines| - 1]) + LineText(lines[|lines| - 1])
  }

  /** The text of a summary render: five rows, the title first, then the four figures. */
  lemma SummaryText(rs: seq<TestResults.Snapshot>, onlyFails: bool)
    ensures var text := Text(Rendering(rs, false, onlyFails));
      && |text| == 5
      && text[0] == "Pandora Testing Suite"
      && text[1] == "Total Tests: " + NatToString(|rs|)
      && text[2] == "Passed Tests: " + NatToString(CountPassed(rs))
      && text[3] == "Failed Tests: " + NatToString(|rs| - CountPassed(rs))
      && text[4] == "Total time: " + NatToString(TotalTime(rs))
  {
    var h := Header(rs);
    assert Rendering(rs, false, onlyFails) == h;
    assert h[..4] == h[..5][..4] && h[..3] == h[..4][..3] && h[..2] == h[..3][..2];
    assert h[..1] == h[..2][..1] && h[..1][..0] == [] && h[..5] == h;
    assert Text(h[..1]) == ["Pandora Testing Suite"];
    assert Text(h[..2]) == Text(h[..1]) + LineText(h[1]);
    assert Text(h[..3]) == Text(h[..2]) + LineText(h[2]);
    assert Text(h[..4]) == Text(h[..3]) + LineText(h[3]);
    assert Text(h) == Text(h[..4]) + LineText(h[4]);
  }
}
