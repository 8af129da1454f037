/** The first-generation runner (services/execute_test.py): the cases come
    straight from the test-case file, each is run with `make -s run` by
    `TestCase.execute` (models/test_case.py), compared literally, and there
    is no build step and no error translation. */
module LegacyRunner {
  import opened Wrappers
  import opened TestCaseEntity
  import opened Classifier
  import opened RunJournal
  import opened Report
  import opened ProgramExecution
  import opened Stores

  /** The command line `TestCase.execute` runs. */
  const MakeRun: seq<string> := ["make", "-s", "run"]

  /** `TestCase.execute`: run `make -s run` on the case's input, compare
      the output literally. */
  method ExecuteCase(tc: TestCase, machine: Machine, journal: Journal) returns (r: TestResult)
    modifies journal
    ensures r == ClassifyLiteral(tc, machine.run(MakeRun, tc.given))
    ensures journal.events == old(journal.events) + [ExecuteCalled(MakeRun, tc)]
  {
    journal.Record(ExecuteCalled(MakeRun, tc));
    r := ClassifyLiteral(tc, machine.run(MakeRun, tc.given));
  }

  /** The results `execute_and_show` returns, in case order. */
  function LegacyResults(cases: seq<TestCase>, m: Machine): (rs: seq<TestResult>)
    ensures |rs| == |cases|
    ensures forall i :: 0 <= i < |cases| ==> rs[i] == ClassifyLiteral(cases[i], m.run(MakeRun, cases[i].given))
  {
    if cases == [] then []
    else
      var last := cases[|cases| - 1];
      LegacyResults(cases[..|cases| - 1], m) + [ClassifyLiteral(last, m.run(MakeRun, last.given))]
  }

  /** One iteration of `execute_and_show`: the rule, the run, the status
      line under the case's own name, then the detail of its result `r`. */
  function LegacyCaseEvents(tc: TestCase, r: TestResult): seq<Event>
  {
    [Printed(Rule)] + [ExecuteCalled(MakeRun, tc)] + [Printed(StatusRow(tc.name, r.status))] + Prints(DetailLines(r))
  }

  function LegacyCasesEvents(cases: seq<TestCase>, results: seq<TestResult>): seq<Event>
    requires |results| == |cases|
  {
    if cases == [] then []
    else
      LegacyCasesEvents(cases[..|cases| - 1], results[..|cases| - 1])
        + LegacyCaseEvents(cases[|cases| - 1], results[|cases| - 1])
  }

  lemma LegacyStep(start: seq<Event>, cases: seq<TestCase>, results: seq<TestResult>, i: nat, r: TestResult)
    requires i < |cases| && |results| == i
    ensures start + LegacyCasesEvents(cases[..i], results) + [Printed(Rule)] + [ExecuteCalled(MakeRun, cases[i])]
              + [Printed(StatusRow(cases[i].name, r.status))] + Prints(DetailLines(r))
            == start + LegacyCasesEvents(cases[..i + 1], results + [r])
  {
    var before := LegacyCasesEvents(cases[..i], results);
    var block := LegacyCaseEvents(cases[i], r);
    calc {
      start + before + [Printed(Rule)] + [ExecuteCalled(MakeRun, cases[i])]
        + [Printed(StatusRow(cases[i].name, r.status))] + Prints(DetailLines(r));
    == { AppendFour(start + before, [Printed(Rule)], [ExecuteCalled(MakeRun, cases[i])],
                    [Printed(StatusRow(cases[i].name, r.status))], Prints(DetailLines(r))); }
      (start + before) + block;
    == { AppendAssoc(start, before, block); }
      start + (before + block);
    == { LegacyCasesEventsNext(cases, results, i, r); }
      start + LegacyCasesEvents(cases[..i + 1], results + [r]);
    }
  }

  lemma LegacyCasesEventsNext(cases: seq<TestCase>, results: seq<TestResult>, i: nat, r: TestResult)
    requires i < |cases| && |results| == i
    ensures LegacyCasesEvents(cases[..i + 1], results + [r]) == LegacyCasesEvents(cases[..i], results) + LegacyCaseEvents(cases[i], r)
  {
    assert cases[..i + 1] == cases[..i] + [cases[i]];
    LegacyCasesEventsSnoc(cases[..i], results, cases[i], r);
  }

  lemma LegacyCasesEventsSnoc(a: seq<TestCase>, ra: seq<TestResult>, tc: TestCase, r: TestResult)
    requires |ra| == |a|
    ensures LegacyCasesEvents(a + [tc], ra + [r]) == LegacyCasesEvents(a, ra) + LegacyCaseEvents(tc, r)
  {
    assert (a + [tc])[..|a|] == a;
    assert (ra + [r])[..|a|] == ra;
  }

  lemma LegacyResultsSnoc(cases: seq<TestCase>, i: nat, m: Machine)
    requires i < |cases|
    ensures LegacyResults(cases[..i + 1], m) == LegacyResults(cases[..i], m) + [ClassifyLiteral(cases[i], m.run(MakeRun, cases[i].given))]
  {
    assert cases[..i + 1][..i] == cases[..i];
  }

  lemma BlockCalls(a: Line, x: Event, b: Line, lines: seq<Line>)
    requires !x.Printed?
    ensures Calls([Printed(a)] + [x] + [Printed(b)] + Prints(lines)) == [x]
  {
    EventCalls(Printed(a));
    EventCalls(x);
    EventCalls(Printed(b));
    PrintsCallNothing(lines);
    CallsAppend([Printed(a)], [x]);
    CallsAppend([Printed(a)] + [x], [Printed(b)]);
    CallsAppend([Printed(a)] + [x] + [Printed(b)], Prints(lines));
  }

  lemma LegacyCaseCalls(tc: TestCase, r: TestResult)
    ensures Calls(LegacyCaseEvents(tc, r)) == [ExecuteCalled(MakeRun, tc)]
  {
    BlockCalls(Rule, ExecuteCalled(MakeRun, tc), StatusRow(tc.name, r.status), DetailLines(r));
  }

  /** Each case is run exactly once, in list order, and nothing is built. */
  lemma {:induction false} LegacyCalls(cases: seq<TestCase>, results: seq<TestResult>)
    requires |results| == |cases|
    ensures Calls(LegacyCasesEvents(cases, results)) == ExecuteCalls(MakeRun, cases)
  {
    if cases != [] {
      var n := |cases| - 1;
      LegacyCalls(cases[..n], results[..n]);
      LegacyCaseCalls(cases[n], results[n]);
      CallsAppend(LegacyCasesEvents(cases[..n], results[..n]), LegacyCaseEvents(cases[n], results[n]));
    }
  }

  /** The legacy status line carries the case's name, which is also the
      result's: it reads the same as the row `_show_result` prints. */
  lemma LegacyStatusRow(tc: TestCase, m: Machine)
    ensures StatusRow(tc.name, ClassifyLiteral(tc, m.run(MakeRun, tc.given)).status)
            == StatusLine(ClassifyLiteral(tc, m.run(MakeRun, tc.given)))
  {
  }

  /** `execute_and_show`. */
  method ExecuteAndShow(cases: seq<TestCase>, machine: Machine, journal: Journal) returns (results: seq<TestResult>)
    modifies journal
    ensures results == LegacyResults(cases, machine)
    ensures journal.events == old(journal.events) + LegacyCasesEvents(cases, results)
  {
    ghost var start := journal.events;
    results := [];
    for i := 0 to |cases|
      invariant results == LegacyResults(cases[..i], machine)
      invariant journal.events == start + LegacyCasesEvents(cases[..i], results)
    {
      journal.Print(Rule);
      var result := ExecuteCase(cases[i], machine, journal);
      journal.Print(StatusRow(cases[i].name, result.status));
      var ok := ShowDetail(journal, result);
      assert ok;
      LegacyStep(start, cases, results, i, result);
      LegacyResultsSnoc(cases, i, machine);
      results := results + [result];
    }
    assert cases[..|cases|] == cases;
  }

  /** `execute_test`: a failed read of the test-case file propagates as it
      is; otherwise every case runs and the summary follows. */
  method LegacyExecuteTest(repo: Store<seq<TestCase>>, machine: Machine, journal: Journal) returns (r: Outcome<AppError>)
    modifies journal
    ensures repo.cell.Unreadable? ==> r == Fail(Uncaught(ReadError)) && journal.events == old(journal.events)
    ensures repo.cell.Malformed? ==> r == Fail(Uncaught(ParseError)) && journal.events == old(journal.events)
    ensures repo.cell.Holds? ==>
              var results := LegacyResults(repo.cell.value, machine);
              r == Pass
              && journal.events == old(journal.events) + LegacyCasesEvents(repo.cell.value, results) + Prints(SummaryLines(results))
  {
    var cs := repo.Read();
    if cs.Failure? {
      return Fail(Uncaught(cs.error));
    }
    var results := ExecuteAndShow(cs.value, machine, journal);
    ShowSummary(journal, results);
    r := Pass;
  }
}
