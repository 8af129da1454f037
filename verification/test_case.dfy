/** The test-case entities: the four verdicts, their coloured rendering, one
    test case and one test result (atcoder_helper/entities/atcoder_test_case.py;
    the same status table also stands in models/test_case.py and
    atcoder_helper/models/test_case.py). */
module TestCaseEntity {
  import opened Wrappers

  /** AC = output matches, WA = wrong answer, ERROR = nonzero exit,
      JUSTSHOW = no expected output to compare against. */
  datatype Status = AC | WA | ERROR | JUSTSHOW

  /** The enum member's `name`. */
  function Name(s: Status): string
  {
    match s
    case AC => "AC"
    case WA => "WA"
    case ERROR => "ERROR"
    case JUSTSHOW => "JUSTSHOW"
  }

  /** colorama's `Fore.*` escape for each status. */
  function Colour(s: Status): (c: string)
    ensures |c| == 5 && c[..2] == "\U{1B}[" && c[4] == 'm'
  {
    match s
    case AC => "\U{1B}[32m"        // Fore.GREEN
    case WA => "\U{1B}[33m"        // Fore.YELLOW
    case ERROR => "\U{1B}[31m"     // Fore.RED
    case JUSTSHOW => "\U{1B}[34m"  // Fore.BLUE
  }

  /** colorama's `Style.RESET_ALL`. */
  const Reset: string := "\U{1B}[0m"

  /** `status.dyed`: the colour escape, the status name verbatim, the reset. */
  function Dyed(s: Status): (d: string)
    ensures Colour(s) <= d
    ensures |d| == |Colour(s)| + |Name(s)| + |Reset|
    ensures d[|Colour(s)|..|d| - |Reset|] == Name(s)
    ensures d[|d| - |Reset|..] == Reset
  {
    Colour(s) + Name(s) + Reset
  }

  /** Removes the colour escape and the reset from a dyed text, when it has
      that shape. */
  function Undye(t: string): (r: Option<string>)
    ensures r.Some? ==> |t| >= 9 && r.value == t[5..|t| - 4]
  {
    if |t| >= 9 && t[..2] == "\U{1B}[" && t[4] == 'm' && t[|t| - 4..] == Reset
    then Some(t[5..|t| - 4])
    else None
  }

  lemma UndyeDyed(s: Status)
    ensures Undye(Dyed(s)) == Some(Name(s))
  {
    var d := Dyed(s);
    assert d[..2] == Colour(s)[..2];
    assert d[4] == Colour(s)[4];
  }

  /** Each status has its own colour, so the dyed texts differ too. */
  lemma ColourInjective(s: Status, t: Status)
    requires s != t
    ensures Colour(s) != Colour(t) && Dyed(s) != Dyed(t)
  {
    assert Colour(s)[3] != Colour(t)[3];
    UndyeDyed(s);
    UndyeDyed(t);
  }

  /** AtcoderTestCase: `expected == None` means there is nothing to compare
      the program's output with. */
  datatype TestCase = TestCase(name: string, given: string, expected: Option<string>)

  /** AtCoderTestResult; `expected` is absent unless supplied. */
  datatype TestResult = TestResult(
    name: string,
    status: Status,
    actual: string,
    error: string,
    expected: Option<string> := None)

  /** The only result shape `_show_result` refuses with "internal error". */
  predicate Renderable(r: TestResult)
  {
    r.status == WA ==> r.expected.Some?
  }
}
