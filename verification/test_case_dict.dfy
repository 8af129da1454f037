/** Test cases to and from their dictionary form (the YAML suite file).
    `FromDict` is the same code in both revisions
    (atcoder_helper/models/test_case.py and models/test_case.py); `ToDict`
    differs: the current revision omits "expected" when there is none, the
    older one (`LegacyToDict`) writes it as None. */
module TestCaseDict {
  import opened Wrappers
  import opened PyDict
  import opened TestCaseEntity

  /** `AtcoderTestCase.to_dict`. */
  function ToDict(c: TestCase): (d: PyMap)
    ensures d.Keys == if c.expected.Some? then {"name", "input", "expected"} else {"name", "input"}
    ensures d["name"] == Str(c.name) && d["input"] == Str(c.given)
    ensures c.expected.Some? ==> d["expected"] == Str(c.expected.value)
  {
    if c.expected.None? then map["name" := Str(c.name), "input" := Str(c.given)]
    else map["name" := Str(c.name), "input" := Str(c.given), "expected" := Str(c.expected.value)]
  }

  /** `TestCase.to_dict` of models/test_case.py: "expected" is always present. */
  function LegacyToDict(c: TestCase): (d: PyMap)
    ensures d.Keys == {"name", "input", "expected"}
    ensures d["name"] == Str(c.name) && d["input"] == Str(c.given)
    ensures d["expected"] == if c.expected.Some? then Str(c.expected.value) else Null
  {
    map["name" := Str(c.name), "input" := Str(c.given),
        "expected" := if c.expected.Some? then Str(c.expected.value) else Null]
  }

  /** `from_dict`: arguments are evaluated name, input, expected, so the first
      bad key in that order is the one reported. */
  function FromDict(d: PyMap): (r: Result<TestCase, DictError>)
    ensures r.Success? <==>
              && "name" in d && d["name"].Str?
              && "input" in d && d["input"].Str?
              && ("expected" in d ==> d["expected"].Str?)
    ensures r.Success? ==>
              && r.value.name == d["name"].s
              && r.value.given == d["input"].s + "\n"
              && r.value.expected == (if "expected" in d then Some(d["expected"].s + "\n") else None)
    ensures "name" !in d ==> r == Failure(MissingKey("name"))
    ensures "name" in d && d["name"].Str? && "input" !in d ==> r == Failure(MissingKey("input"))
  {
    if "name" !in d then Failure(MissingKey("name"))
    else if !d["name"].Str? then Failure(WrongType("name"))
    else if "input" !in d then Failure(MissingKey("input"))
    else if !d["input"].Str? then Failure(WrongType("input"))   // `<non-str> + "\n"`
    else if "expected" !in d then Success(TestCase(d["name"].s, d["input"].s + "\n", None))
    else if !d["expected"].Str? then Failure(WrongType("expected"))
    else Success(TestCase(d["name"].s, d["input"].s + "\n", Some(d["expected"].s + "\n")))
  }

  /** What reading back a written case gives: the newline rule applied once. */
  function WithNewlines(c: TestCase): TestCase
  {
    TestCase(c.name, c.given + "\n",
             if c.expected.Some? then Some(c.expected.value + "\n") else None)
  }

  /** Writing a case and reading it back keeps the name and appends "\n" to
      the input and, when present, to the expected output. */
  lemma RoundTrip(c: TestCase)
    ensures FromDict(ToDict(c)) == Success(WithNewlines(c))
  {
  }

  /** The older `to_dict` writes "expected": None for a just-show case, and
      `from_dict` then evaluates `None + "\n"`, a TypeError. */
  lemma LegacyRoundTripFails(c: TestCase)
    requires c.expected.None?
    ensures FromDict(LegacyToDict(c)) == Failure(WrongType("expected"))
  {
  }

  /** With an expected output the older `to_dict` round-trips like the newer one. */
  lemma LegacyRoundTripWithExpected(c: TestCase)
    requires c.expected.Some?
    ensures LegacyToDict(c) == ToDict(c)
    ensures FromDict(LegacyToDict(c)) == Success(WithNewlines(c))
  {
  }

  /** The two cases in tests/test_models/test_test_cases.py. */
  lemma FromDictExamples()
    ensures FromDict(map["name" := Str("foo"), "input" := Str("bar"), "expected" := Str("baz")])
              == Success(TestCase("foo", "bar\n", Some("baz\n")))
    ensures FromDict(map["name" := Str("foo"), "input" := Str("bar")])
              == Success(TestCase("foo", "bar\n", None))
  {
    assert "bar" + "\n" == "bar\n";
    assert "baz" + "\n" == "baz\n";
  }
}
