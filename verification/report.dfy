/** The terminal report: per-case detail (`_show_result`) and the summary
    (`_show_summary`), identical in the three suite runners
    (atcoder_helper/application/interactors/execute_test.py,
    atcoder_helper/services/execute_test.py, atcoder_helper/usecases/execute_test.py)
    and, apart from where the status line is printed, in services/execute_test.py. */
module Report {
  import opened Wrappers
  import opened PyText
  import opened TestCaseEntity
  import opened RunJournal

  /** The characters of a `Rule` line: 35 dashes. */
  const RuleText: string := Repeat('-', 35)
  /** The characters of a `DoubleRule` line: 40 equals signs. */
  const DoubleRuleText: string := Repeat('=', 40)
  const SummaryHeader: string := "SUMMARY:"

  /** `f"{name:<15}: {status.dyed}"`. */
  function StatusText(name: string, s: Status): (t: string)
    ensures PadRight(name, 15) + ": " <= t
    ensures t[|PadRight(name, 15)| + 2..] == Dyed(s)
  {
    PadRight(name, 15) + ": " + Dyed(s)
  }

  /** What follows the status line: the output for JUSTSHOW, stderr for
      ERROR, expected then actual for WA, nothing for AC. A WA result without
      an expected output prints nothing more: `_show_result` raises there. */
  function DetailLines(r: TestResult): seq<Line>
  {
    match r.status
    case AC => []
    case JUSTSHOW => [Plain("    output:"), Indented(r.actual)]
    case ERROR => [Plain(r.error)]
    case WA =>
      if r.expected.None? then []
      else [Plain("    expected:"), Indented(r.expected.value), Plain("    but got:"), Indented(r.actual)]
  }

  /** Everything `_show_result` prints for one result. */
  function ResultLines(r: TestResult): seq<Line>
  {
    [Rule, StatusLine(r)] + DetailLines(r)
  }

  /** The status line of one result. */
  function StatusLine(r: TestResult): Line
  {
    StatusRow(r.name, r.status)
  }

  /** One summary line per result, in the given order. */
  function StatusLines(results: seq<TestResult>): (ls: seq<Line>)
    ensures |ls| == |results|
    ensures forall i :: 0 <= i < |results| ==>
              ls[i] == StatusLine(results[i])
  {
    if results == [] then []
    else
      StatusLines(results[..|results| - 1]) + [StatusLine(results[|results| - 1])]
  }

  /** `_show_summary`: the double rule, the header, then the status lines. */
  function SummaryLines(results: seq<TestResult>): (ls: seq<Line>)
    ensures |ls| == |results| + 2
    ensures ls[0] == DoubleRule && ls[1] == Plain(SummaryHeader)
    ensures forall i :: 0 <= i < |results| ==> ls[i + 2] == StatusLine(results[i])
  {
    [DoubleRule, Plain(SummaryHeader)] + StatusLines(results)
  }

  /** The detail each status shows, read back from the lines. */
  lemma DetailByStatus(r: TestResult)
    ensures r.status == AC ==> DetailLines(r) == []
    ensures r.status == JUSTSHOW ==> Indented(r.actual) in DetailLines(r)
    ensures r.status == ERROR ==> DetailLines(r) == [Plain(r.error)]
    ensures r.status == WA && r.expected.Some? ==>
              DetailLines(r)[1] == Indented(r.expected.value) && DetailLines(r)[3] == Indented(r.actual)
    ensures Renderable(r) && r.status != AC ==> DetailLines(r) != []
  {
  }

  /** The detail part of `_show_result` (inlined in `execute_and_show`);
      `ok` is false exactly when it would raise "internal error". */
  method ShowDetail(journal: Journal, r: TestResult) returns (ok: bool)
    modifies journal
    ensures ok == Renderable(r)
    ensures journal.events == old(journal.events) + Prints(DetailLines(r))
  {
    ghost var e0 := journal.events;
    ok := true;
    if r.status == JUSTSHOW {
      journal.Print(Plain("    output:"));
      journal.Print(Indented(r.actual));
      PrintedTwo(e0, Plain("    output:"), Indented(r.actual));
    }
    if r.status == ERROR {
      journal.Print(Plain(r.error));
      PrintedOne(e0, Plain(r.error));
    }
    if r.status == WA {
      if r.expected.None? {
        ok := false;
        assert e0 + Prints([]) == e0;
        return;
      }
      journal.Print(Plain("    expected:"));
      journal.Print(Indented(r.expected.value));
      journal.Print(Plain("    but got:"));
      journal.Print(Indented(r.actual));
      PrintedFour(e0, Plain("    expected:"), Indented(r.expected.value), Plain("    but got:"), Indented(r.actual));
    }
    if r.status == AC {
      assert e0 + Prints([]) == e0;
    }
  }

  /** `_show_result`. */
  method ShowResult(journal: Journal, r: TestResult) returns (ok: bool)
    modifies journal
    ensures ok == Renderable(r)
    ensures journal.events == old(journal.events) + Prints(ResultLines(r))
  {
    ghost var e0 := journal.events;
    journal.Print(Rule);
    journal.Print(StatusLine(r));
    PrintedTwo(e0, Rule, StatusLine(r));
    ok := ShowDetail(journal, r);
    PrintsAppend([Rule, StatusLine(r)], DetailLines(r));
    AppendAssoc(e0, Prints([Rule, StatusLine(r)]), Prints(DetailLines(r)));
  }

  lemma StatusLinesSnoc(results: seq<TestResult>, i: nat)
    requires i < |results|
    ensures Prints(StatusLines(results[..i + 1])) == Prints(StatusLines(results[..i])) + [Printed(StatusLine(results[i]))]
  {
    assert results[..i + 1][..i] == results[..i];
    PrintsAppend(StatusLines(results[..i]), [StatusLine(results[i])]);
    PrintedOne([], StatusLine(results[i]));
    assert [] + [Printed(StatusLine(results[i]))] == [Printed(StatusLine(results[i]))];
  }

  /** The loop of `_show_summary`: one status row per result. */
  method ShowStatusLines(journal: Journal, results: seq<TestResult>)
    modifies journal
    ensures journal.events == old(journal.events) + Prints(StatusLines(results))
  {
    ghost var e0 := journal.events;
    for i := 0 to |results|
      invariant journal.events == e0 + Prints(StatusLines(results[..i]))
    {
      journal.Print(StatusLine(results[i]));
      StatusLinesSnoc(results, i);
      AppendAssoc(e0, Prints(StatusLines(results[..i])), [Printed(StatusLine(results[i]))]);
    }
    assert results[..|results|] == results;
  }

  /** `_show_summary` / `show_summary`. */
  method ShowSummary(journal: Journal, results: seq<TestResult>)
    modifies journal
    ensures journal.events == old(journal.events) + Prints(SummaryLines(results))
  {
    ghost var e0 := journal.events;
    journal.Print(DoubleRule);
    journal.Print(Plain(SummaryHeader));
    ghost var e1 := journal.events;
    ghost var header := [DoubleRule, Plain(SummaryHeader)];
    assert e1 == e0 + Prints(header) by {
      PrintsTwo(DoubleRule, Plain(SummaryHeader));
      AppendAssoc(e0, [Printed(DoubleRule)], [Printed(Plain(SummaryHeader))]);
    }
    ShowStatusLines(journal, results);
    assert journal.events == e0 + Prints(SummaryLines(results)) by {
      PrintsAppend(header, StatusLines(results));
      AppendAssoc(e0, Prints(header), Prints(StatusLines(results)));
    }
  }
}
