/** The suite runner: read the task config and the stored test cases, build
    an executor from the config's commands, build once, run every case in
    order printing its result, then print the summary.
    `ExecuteTestInteractor.execute_test`
    (atcoder_helper/application/interactors/execute_test.py), and its two
    line-for-line copies `ExecuteTestServiceImpl.execute_test`
    (atcoder_helper/services/execute_test.py) and
    `ExecuteTestInteractor.execute_test` (atcoder_helper/usecases/execute_test.py). */
module SuiteRunner {
  import opened Wrappers
  import opened TestCaseEntity
  import opened Classifier
  import opened RunJournal
  import opened Report
  import opened ProgramExecution
  import opened Stores
  import opened TaskConfigModel

  /** The result of each case, in case order. */
  function Results(cases: seq<TestCase>, run: seq<string>, m: Machine): (rs: seq<TestResult>)
    ensures |rs| == |cases|
    ensures forall i :: 0 <= i < |cases| ==> rs[i] == Classify(cases[i], m.run(run, cases[i].given))
  {
    if cases == [] then []
    else
      var last := cases[|cases| - 1];
      Results(cases[..|cases| - 1], run, m) + [Classify(last, m.run(run, last.given))]
  }

  function ExecutingLine(name: string): Line
  {
    Plain("executing " + name + "...")
  }

  /** One loop iteration: the rule, "executing <name>...", the `execute`
      call, then everything `_show_result` prints for its result `r`. */
  function CaseEvents(tc: TestCase, run: seq<string>, r: TestResult): seq<Event>
  {
    [Printed(Rule)] + [Printed(ExecutingLine(tc.name))] + [ExecuteCalled(run, tc)] + Prints(ResultLines(r))
  }

  /** The loop over all cases, `results[i]` being the result of `cases[i]`. */
  function CasesEvents(cases: seq<TestCase>, results: seq<TestResult>, run: seq<string>): seq<Event>
    requires |results| == |cases|
  {
    if cases == [] then []
    else
      CasesEvents(cases[..|cases| - 1], results[..|cases| - 1], run)
        + CaseEvents(cases[|cases| - 1], run, results[|cases| - 1])
  }

  /** A successful `execute_test`: builder, `build`, the loop, the summary. */
  function SuiteEvents(config: TaskConfig, cases: seq<TestCase>, m: Machine): seq<Event>
  {
    var results := Results(cases, config.run, m);
    [ExecutorBuilt(config.build, config.run)] + [BuildCalled(config.build)]
      + CasesEvents(cases, results, config.run)
      + Prints(SummaryLines(results))
  }

  lemma CasesEventsSnoc(a: seq<TestCase>, ra: seq<TestResult>, tc: TestCase, r: TestResult, run: seq<string>)
    requires |ra| == |a|
    ensures CasesEvents(a + [tc], ra + [r], run) == CasesEvents(a, ra, run) + CaseEvents(tc, run, r)
  {
    assert (a + [tc])[..|a|] == a;
    assert (ra + [r])[..|a|] == ra;
  }

  /** One loop iteration extends the journal by the case's block. */
  lemma CaseStep(start: seq<Event>, cases: seq<TestCase>, results: seq<TestResult>, i: nat, r: TestResult, run: seq<string>)
    requires i < |cases| && |results| == i
    ensures start + CasesEvents(cases[..i], results, run) + [Printed(Rule)] + [Printed(ExecutingLine(cases[i].name))]
              + [ExecuteCalled(run, cases[i])] + Prints(ResultLines(r))
            == start + CasesEvents(cases[..i + 1], results + [r], run)
  {
    var before := CasesEvents(cases[..i], results, run);
    var block := CaseEvents(cases[i], run, r);
    calc {
      start + before + [Printed(Rule)] + [Printed(ExecutingLine(cases[i].name))]
        + [ExecuteCalled(run, cases[i])] + Prints(ResultLines(r));
    == { AppendFour(start + before, [Printed(Rule)], [Printed(ExecutingLine(cases[i].name))],
                    [ExecuteCalled(run, cases[i])], Prints(ResultLines(r))); }
      (start + before) + block;
    == { AppendAssoc(start, before, block); }
      start + (before + block);
    == { CasesEventsNext(cases, results, i, r, run); }
      start + CasesEvents(cases[..i + 1], results + [r], run);
    }
  }

  lemma CasesEventsNext(cases: seq<TestCase>, results: seq<TestResult>, i: nat, r: TestResult, run: seq<string>)
    requires i < |cases| && |results| == i
    ensures CasesEvents(cases[..i + 1], results + [r], run) == CasesEvents(cases[..i], results, run) + CaseEvents(cases[i], run, r)
  {
    assert cases[..i + 1] == cases[..i] + [cases[i]];
    CasesEventsSnoc(cases[..i], results, cases[i], r, run);
  }

  lemma ResultsSnoc(cases: seq<TestCase>, i: nat, run: seq<string>, m: Machine)
    requires i < |cases|
    ensures Results(cases[..i + 1], run, m) == Results(cases[..i], run, m) + [Classify(cases[i], m.run(run, cases[i].given))]
  {
    assert cases[..i + 1][..i] == cases[..i];
  }

  lemma {:induction false} CasesEventsAppend(a: seq<TestCase>, ra: seq<TestResult>, b: seq<TestCase>, rb: seq<TestResult>, run: seq<string>)
    requires |ra| == |a| && |rb| == |b|
    ensures CasesEvents(a + b, ra + rb, run) == CasesEvents(a, ra, run) + CasesEvents(b, rb, run)
  {
    if b == [] {
      assert a + b == a && ra + rb == ra;
    } else {
      var n := |b| - 1;
      var block := CaseEvents(b[n], run, rb[n]);
      assert CasesEvents(a + b, ra + rb, run) == CasesEvents(a + b[..n], ra + rb[..n], run) + block by {
        assert a + b == (a + b[..n]) + [b[n]];
        assert ra + rb == (ra + rb[..n]) + [rb[n]];
        CasesEventsSnoc(a + b[..n], ra + rb[..n], b[n], rb[n], run);
      }
      CasesEventsAppend(a, ra, b[..n], rb[..n], run);
      AppendAssoc(CasesEvents(a, ra, run), CasesEvents(b[..n], rb[..n], run), block);
    }
  }

  /** A case's block sits between the blocks of the cases before and after
      it: its result is fully printed before the next case is executed. */
  lemma RenderedBeforeNext(
    before: seq<TestCase>, rBefore: seq<TestResult>, tc: TestCase, r: TestResult,
    after: seq<TestCase>, rAfter: seq<TestResult>, run: seq<string>)
    requires |rBefore| == |before| && |rAfter| == |after|
    ensures CasesEvents(before + [tc] + after, rBefore + [r] + rAfter, run)
            == CasesEvents(before, rBefore, run) + CaseEvents(tc, run, r) + CasesEvents(after, rAfter, run)
  {
    CasesEventsAppend(before + [tc], rBefore + [r], after, rAfter, run);
    CasesEventsSnoc(before, rBefore, tc, r, run);
  }

  lemma CaseCalls(tc: TestCase, run: seq<string>, r: TestResult)
    ensures Calls(CaseEvents(tc, run, r)) == [ExecuteCalled(run, tc)]
  {
    var p1, p2, x := Printed(Rule), Printed(ExecutingLine(tc.name)), ExecuteCalled(run, tc);
    EventCalls(p1);
    EventCalls(p2);
    EventCalls(x);
    PrintsCallNothing(ResultLines(r));
    CallsAppend([p1], [p2]);
    CallsAppend([p1] + [p2], [x]);
    CallsAppend([p1] + [p2] + [x], Prints(ResultLines(r)));
  }

  /** The loop calls `execute` once per case, in stored order, and nothing else. */
  lemma {:induction false} CasesCalls(cases: seq<TestCase>, results: seq<TestResult>, run: seq<string>)
    requires |results| == |cases|
    ensures Calls(CasesEvents(cases, results, run)) == ExecuteCalls(run, cases)
  {
    if cases != [] {
      var n := |cases| - 1;
      CasesCalls(cases[..n], results[..n], run);
      CaseCalls(cases[n], run, results[n]);
      CallsAppend(CasesEvents(cases[..n], results[..n], run), CaseEvents(cases[n], run, results[n]));
    }
  }

  /** A successful run builds one executor from exactly the config's
      commands, calls `build` once, before anything else reaches the
      executor, then `execute` once per case in order; nothing else is called. */
  lemma SuiteCalls(config: TaskConfig, cases: seq<TestCase>, m: Machine)
    ensures Calls(SuiteEvents(config, cases, m))
            == [ExecutorBuilt(config.build, config.run), BuildCalled(config.build)] + ExecuteCalls(config.run, cases)
  {
    var results := Results(cases, config.run, m);
    var b, c := ExecutorBuilt(config.build, config.run), BuildCalled(config.build);
    var loop := CasesEvents(cases, results, config.run);
    var summary := Prints(SummaryLines(results));
    EventCalls(b);
    EventCalls(c);
    CasesCalls(cases, results, config.run);
    PrintsCallNothing(SummaryLines(results));
    CallsAppend([b], [c]);
    CallsAppend([b] + [c], loop);
    CallsAppend([b] + [c] + loop, summary);
    assert [b] + [c] == [b, c];
  }

  class ExecuteTestInteractor {
    const taskConfigRepo: Store<TaskConfig>
    const testCaseRepo: Store<seq<TestCase>>
    const machine: Machine
    const journal: Journal

    constructor (taskConfigRepo: Store<TaskConfig>, testCaseRepo: Store<seq<TestCase>>, machine: Machine, journal: Journal)
      ensures this.taskConfigRepo == taskConfigRepo && this.testCaseRepo == testCaseRepo
      ensures this.machine == machine && this.journal == journal
    {
      this.taskConfigRepo := taskConfigRepo;
      this.testCaseRepo := testCaseRepo;
      this.machine := machine;
      this.journal := journal;
    }

    /** Both reads succeed. */
    predicate Readable()
      reads this, taskConfigRepo, testCaseRepo
    {
      taskConfigRepo.cell.Holds? && testCaseRepo.cell.Holds?
    }

    /** `execute_test`. A ReadError or ParseError from either read is a
        ConfigAccessError before anything is built or run; otherwise the
        run produces exactly `SuiteEvents`, whatever the build's exit code. */
    method ExecuteTest() returns (r: Outcome<AppError>)
      modifies journal
      ensures !Readable() ==> r == Fail(ConfigAccessError) && journal.events == old(journal.events)
      ensures Readable() ==>
                r == Pass
                && journal.events == old(journal.events) + SuiteEvents(taskConfigRepo.cell.value, testCaseRepo.cell.value, machine)
    {
      var c := taskConfigRepo.Read();
      if c.Failure? {
        return Fail(ReadFailure(ReadAndParse, c.error));
      }
      var cs := testCaseRepo.Read();
      if cs.Failure? {
        return Fail(ReadFailure(ReadAndParse, cs.error));
      }
      RunSuite(c.value, cs.value);
      r := Pass;
    }

    /** Everything after the reads: build the executor, `build` once, run
        the cases, print the summary. */
    method RunSuite(config: TaskConfig, cases: seq<TestCase>)
      modifies journal
      ensures journal.events == old(journal.events) + SuiteEvents(config, cases, machine)
    {
      ghost var e0 := journal.events;
      var executor := NewExecutor(config.build, config.run, machine, journal);
      var built := executor.Build();  // the outcome does not stop the run
      var results := RunCases(executor, cases);
      ShowSummary(journal, results);
      AppendFour(e0, [ExecutorBuilt(config.build, config.run)], [BuildCalled(config.build)],
                 CasesEvents(cases, results, config.run), Prints(SummaryLines(results)));
    }

    /** The loop of `execute_test`: for each case, the rule and
        "executing <name>...", `execute`, append the result, `_show_result`. */
    method RunCases(executor: Executor, cases: seq<TestCase>) returns (results: seq<TestResult>)
      requires executor.journal == journal
      modifies journal
      ensures results == Results(cases, executor.runCommand, executor.machine)
      ensures journal.events == old(journal.events) + CasesEvents(cases, results, executor.runCommand)
    {
      ghost var start := journal.events;
      results := [];
      for i := 0 to |cases|
        invariant results == Results(cases[..i], executor.runCommand, executor.machine)
        invariant journal.events == start + CasesEvents(cases[..i], results, executor.runCommand)
      {
        ghost var before := CasesEvents(cases[..i], results, executor.runCommand);
        journal.Print(Rule);
        journal.Print(ExecutingLine(cases[i].name));
        var result := executor.Execute(cases[i]);
        var ok := ShowResult(journal, result);
        assert ok;
        CaseStep(start, cases, results, i, result, executor.runCommand);
        ResultsSnoc(cases, i, executor.runCommand, executor.machine);
        results := results + [result];
      }
      assert cases[..|cases|] == cases;
    }
  }
}
