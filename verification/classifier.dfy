/** The verdict for one run of a test case: the process outcome against the
    case's optional expected output. Two revisions of the rule exist:
    `ProgramExecutorRepoImpl.execute` (atcoder_helper/program_executor.py)
    compares after `rstrip()`, `TestCase.execute` (models/test_case.py)
    compares literally. */
module Classifier {
  import opened Wrappers
  import opened PyText
  import opened TestCaseEntity

  /** What `subprocess.run(..., capture_output=True, text=True)` hands back. */
  datatype RunOutcome = RunOutcome(exitCode: int, stdout: string, stderr: string)

  /** The comparison each revision applies once the run exited with 0. */
  predicate Matches(expected: string, stdout: string, stripped: bool)
  {
    if stripped then Rstrip(expected) == Rstrip(stdout) else expected == stdout
  }

  /** The shared if/return chain: `stripped` selects the comparison. */
  function Judge(tc: TestCase, o: RunOutcome, stripped: bool): (r: TestResult)
    ensures r.name == tc.name && r.actual == o.stdout
    ensures r.status == ERROR <==> o.exitCode != 0
    ensures r.status == JUSTSHOW <==> o.exitCode == 0 && tc.expected.None?
    ensures r.status == AC <==>
              o.exitCode == 0 && tc.expected.Some? && Matches(tc.expected.value, o.stdout, stripped)
    ensures r.status == WA <==>
              o.exitCode == 0 && tc.expected.Some? && !Matches(tc.expected.value, o.stdout, stripped)
    ensures r.error == if r.status == ERROR then o.stderr else ""
    ensures r.expected == if r.status == WA then tc.expected else None
    ensures Renderable(r)
  {
    if o.exitCode != 0 then
      TestResult(tc.name, ERROR, o.stdout, o.stderr)
    else if tc.expected.None? then
      TestResult(tc.name, JUSTSHOW, o.stdout, "")
    else if Matches(tc.expected.value, o.stdout, stripped) then
      TestResult(tc.name, AC, o.stdout, "")
    else
      TestResult(tc.name, WA, o.stdout, "", tc.expected)
  }

  /** atcoder_helper/program_executor.py: trailing whitespace is ignored. */
  function Classify(tc: TestCase, o: RunOutcome): (r: TestResult)
    ensures r.status == AC <==>
              o.exitCode == 0 && tc.expected.Some? && Rstrip(tc.expected.value) == Rstrip(o.stdout)
    ensures Renderable(r)
  {
    Judge(tc, o, true)
  }

  /** models/test_case.py: the strings must be equal as they are. */
  function ClassifyLiteral(tc: TestCase, o: RunOutcome): (r: TestResult)
    ensures r.status == AC <==>
              o.exitCode == 0 && tc.expected.Some? && tc.expected.value == o.stdout
    ensures Renderable(r)
  {
    Judge(tc, o, false)
  }

  /** A nonzero exit is an ERROR whatever stdout and the expected output are. */
  lemma ExitCodePrecedence(tc: TestCase, o: RunOutcome)
    requires o.exitCode != 0
    ensures Classify(tc, o) == TestResult(tc.name, ERROR, o.stdout, o.stderr, None)
    ensures ClassifyLiteral(tc, o) == Classify(tc, o)
  {
  }

  /** The two revisions agree except that a literal WA may be an AC once
      trailing whitespace is stripped; never the other way round. */
  lemma LiteralRefinesStripped(tc: TestCase, o: RunOutcome)
    ensures ClassifyLiteral(tc, o).status == AC ==> Classify(tc, o).status == AC
    ensures Classify(tc, o).status == WA ==> ClassifyLiteral(tc, o).status == WA
    ensures ClassifyLiteral(tc, o).status != Classify(tc, o).status ==>
              ClassifyLiteral(tc, o).status == WA && Classify(tc, o).status == AC
    ensures ClassifyLiteral(tc, o).status == Classify(tc, o).status ==>
              ClassifyLiteral(tc, o) == Classify(tc, o)
  {
  }

  /** Expected "3\n" against output "3": AC after stripping, WA literally. */
  lemma TrailingNewlineExample(name: string)
    ensures Classify(TestCase(name, "", Some("3\n")), RunOutcome(0, "3", "")).status == AC
    ensures ClassifyLiteral(TestCase(name, "", Some("3\n")), RunOutcome(0, "3", "")).status == WA
  {
    RstripIgnoresTrailingSpace("3", "\n");
    assert "3" + "\n" == "3\n";
    assert Rstrip("3") == "3";
  }

  /** Output that differs from the expected text only by trailing whitespace
      is accepted. */
  lemma StrippedAcceptsTrailingSpace(tc: TestCase, o: RunOutcome, w: string)
    requires o.exitCode == 0 && tc.expected.Some? && AllSpace(w)
    requires o.stdout == tc.expected.value + w || tc.expected.value == o.stdout + w
    ensures Classify(tc, o).status == AC
  {
    if o.stdout == tc.expected.value + w {
      RstripIgnoresTrailingSpace(tc.expected.value, w);
    } else {
      RstripIgnoresTrailingSpace(o.stdout, w);
    }
  }
}
