/** The observable history of a test run: calls made on the program
    executor and lines printed to the terminal, in the order they happen. */
module RunJournal {
  import opened TestCaseEntity

  /** One printed line: the rule before each case and each result
      (`Report.RuleText`), the rule before the summary
      (`Report.DoubleRuleText`), literal text, a block passed through
      `textwrap.indent(text, "       >")`, or a status row
      `f"{name:<15}: {status.dyed}"` (`Report.StatusText`). */
  datatype Line =
    | Rule
    | DoubleRule
    | Plain(text: string)
    | Indented(body: string)
    | StatusRow(name: string, status: Status)

  datatype Event =
    | ExecutorBuilt(buildArgv: seq<string>, runArgv: seq<string>)
    | BuildCalled(buildArgv: seq<string>)
    | ExecuteCalled(runArgv: seq<string>, tc: TestCase)
    | Printed(line: Line)

  class Journal {
    var events: seq<Event>

    constructor ()
      ensures events == []
    {
      events := [];
    }

    /** `print(line)`. */
    method Print(line: Line)
      modifies this
      ensures events == old(events) + [Printed(line)]
    {
      events := events + [Printed(line)];
    }

    /** Records a call on the program executor. */
    method Record(e: Event)
      requires !e.Printed?
      modifies this
      ensures events == old(events) + [e]
    {
      events := events + [e];
    }
  }

  /** The events of printing `lines` one after the other. */
  function Prints(lines: seq<Line>): (es: seq<Event>)
    ensures |es| == |lines|
  {
    if lines == [] then [] else Prints(lines[..|lines| - 1]) + [Printed(lines[|lines| - 1])]
  }

  lemma {:induction false} PrintsAppend(a: seq<Line>, b: seq<Line>)
    ensures Prints(a + b) == Prints(a) + Prints(b)
  {
    if b == [] {
      assert a + b == a;
    } else {
      PrintsAppend(a, b[..|b| - 1]);
      assert (a + b)[..|a + b| - 1] == a + b[..|b| - 1];
    }
  }

  lemma PrintsTwo(a: Line, b: Line)
    ensures Prints([a, b]) == [Printed(a)] + [Printed(b)]
  {
    assert [a, b][..1] == [a];
    assert [a][..0] == [];
  }

  /** The journal after printing one, two or four lines in a row. */
  lemma PrintedOne(e: seq<Event>, a: Line)
    ensures e + [Printed(a)] == e + Prints([a])
  {
    assert [a][..0] == [];
  }

  lemma PrintedTwo(e: seq<Event>, a: Line, b: Line)
    ensures e + [Printed(a)] + [Printed(b)] == e + Prints([a, b])
  {
    PrintsTwo(a, b);
  }

  lemma PrintedFour(e: seq<Event>, a: Line, b: Line, c: Line, d: Line)
    ensures e + [Printed(a)] + [Printed(b)] + [Printed(c)] + [Printed(d)] == e + Prints([a, b, c, d])
  {
    PrintsAppend([a, b], [c, d]);
    PrintsTwo(a, b);
    PrintsTwo(c, d);
    assert [a, b] + [c, d] == [a, b, c, d];
  }

  lemma AppendAssoc<T>(a: seq<T>, b: seq<T>, c: seq<T>)
    ensures (a + b) + c == a + (b + c)
  {
  }

  lemma AppendFour<T>(e: seq<T>, a: seq<T>, b: seq<T>, c: seq<T>, d: seq<T>)
    ensures e + a + b + c + d == e + (a + b + c + d)
  {
  }

  /** Printing `lines` records each line, in order. */
  lemma {:induction false} PrintsIndex(lines: seq<Line>, i: nat)
    requires i < |lines|
    ensures Prints(lines)[i] == Printed(lines[i])
  {
    if i < |lines| - 1 {
      PrintsIndex(lines[..|lines| - 1], i);
    }
  }

  /** The call trace: every event that is not a printed line, in order. */
  function Calls(es: seq<Event>): (cs: seq<Event>)
    ensures |cs| <= |es|
  {
    if es == [] then []
    else Calls(es[..|es| - 1]) + (if es[|es| - 1].Printed? then [] else [es[|es| - 1]])
  }

  /** The `execute` calls for `cases`, one per case and in order. */
  function ExecuteCalls(run: seq<string>, cases: seq<TestCase>): (cs: seq<Event>)
    ensures |cs| == |cases|
    ensures forall i :: 0 <= i < |cases| ==> cs[i] == ExecuteCalled(run, cases[i])
  {
    if cases == [] then []
    else ExecuteCalls(run, cases[..|cases| - 1]) + [ExecuteCalled(run, cases[|cases| - 1])]
  }

  lemma EventCalls(e: Event)
    ensures Calls([e]) == if e.Printed? then [] else [e]
  {
    assert [e][..0] == [];
  }

  lemma {:induction false} CallsAppend(a: seq<Event>, b: seq<Event>)
    ensures Calls(a + b) == Calls(a) + Calls(b)
  {
    if b != [] {
      CallsAppend(a, b[..|b| - 1]);
      assert (a + b)[..|a + b| - 1] == a + b[..|b| - 1];
    } else {
      assert a + b == a;
    }
  }

  /** Printing calls nothing on the executor. */
  lemma {:induction false} PrintsCallNothing(lines: seq<Line>)
    ensures Calls(Prints(lines)) == []
  {
    if lines != [] {
      PrintsCallNothing(lines[..|lines| - 1]);
    }
  }
}
