/** Per-task configuration (atcoder_helper/models/task_config.py). */
module TaskConfigModel {
  import opened Wrappers
  import opened PyDict

  /** contest/task are optional; build and run are argv lists. */
  datatype TaskConfig = TaskConfig(
    contest: Option<string>,
    task: Option<string>,
    build: seq<string>,
    run: seq<string>)

  predicate IsStrList(v: Value)
  {
    v.List? && forall i :: 0 <= i < |v.items| ==> v.items[i].Str?
  }

  /** `v` is the list holding exactly the strings `xs`, in order. */
  predicate ListOf(v: Value, xs: seq<string>)
  {
    v.List? && |v.items| == |xs| && forall i :: 0 <= i < |xs| ==> v.items[i] == Str(xs[i])
  }

  /** The strings of a list of strings, in order. */
  function Strings(v: Value): (r: seq<string>)
    requires IsStrList(v)
    ensures ListOf(v, r)
  {
    seq(|v.items|, i requires 0 <= i < |v.items| => v.items[i].s)
  }

  /** `task_config_dict[key] if key in task_config_dict else None`. */
  function OptionalStr(d: PyMap, key: string): (r: Result<Option<string>, DictError>)
    ensures key !in d ==> r == Success(None)
    ensures key in d && d[key] == Null ==> r == Success(None)
    ensures key in d && d[key].Str? ==> r == Success(Some(d[key].s))
    ensures r.Success? <==> key !in d || d[key] == Null || d[key].Str?
  {
    if key !in d || d[key] == Null then Success(None)
    else if d[key].Str? then Success(Some(d[key].s))
    else Failure(WrongType(key))
  }

  function RequiredStrList(d: PyMap, key: string): (r: Result<seq<string>, DictError>)
    ensures key !in d ==> r == Failure(MissingKey(key))
    ensures r.Success? <==> key in d && IsStrList(d[key])
    ensures r.Success? ==> ListOf(d[key], r.value)
  {
    if key !in d then Failure(MissingKey(key))
    else if IsStrList(d[key]) then Success(Strings(d[key]))
    else Failure(WrongType(key))
  }

  /** `TaskConfig.from_dict`: contest and task default to None, build and run
      are required and copied in order; arguments are evaluated contest,
      task, build, run. */
  function FromDict(d: PyMap): (r: Result<TaskConfig, DictError>)
    ensures r.Success? <==>
              && ("contest" !in d || d["contest"] == Null || d["contest"].Str?)
              && ("task" !in d || d["task"] == Null || d["task"].Str?)
              && "build" in d && IsStrList(d["build"])
              && "run" in d && IsStrList(d["run"])
    ensures ("build" !in d && OptionalStr(d, "contest").Success? && OptionalStr(d, "task").Success?)
              ==> r == Failure(MissingKey("build"))
    ensures "run" !in d ==> r.Failure?
    ensures r.Success? ==>
              && r.value.contest == (if "contest" in d && d["contest"].Str? then Some(d["contest"].s) else None)
              && r.value.task == (if "task" in d && d["task"].Str? then Some(d["task"].s) else None)
              && "build" in d && ListOf(d["build"], r.value.build)
              && "run" in d && ListOf(d["run"], r.value.run)
  {
    match OptionalStr(d, "contest")
    case Failure(e) => Failure(e)
    case Success(contest) =>
      match OptionalStr(d, "task")
      case Failure(e) => Failure(e)
      case Success(task) =>
        match RequiredStrList(d, "build")
        case Failure(e) => Failure(e)
        case Success(build) =>
          match RequiredStrList(d, "run")
          case Failure(e) => Failure(e)
          case Success(run) => Success(TaskConfig(contest, task, build, run))
  }

  /** tests/test_models/test_task_config.py. */
  lemma FromDictExample()
    ensures FromDict(map[
              "contest" := Str("A"), "task" := Str("B"),
              "build" := List([Str("foo"), Str("bar"), Str("baz")]),
              "run" := List([Str("qux"), Str("quux")])])
            == Success(TaskConfig(Some("A"), Some("B"), ["foo", "bar", "baz"], ["qux", "quux"]))
  {
    var d := map[
      "contest" := Str("A"), "task" := Str("B"),
      "build" := List([Str("foo"), Str("bar"), Str("baz")]),
      "run" := List([Str("qux"), Str("quux")])];
    assert Strings(d["build"]) == ["foo", "bar", "baz"];
    assert Strings(d["run"]) == ["qux", "quux"];
  }
}
