/** The application-wide configuration: one entry per language and the name
    of the default one. atcoder_helper/models/atcoder_helper_config.py builds
    it from a dictionary with the languages as a list (`ConfigRecord`); the
    use cases work on the entity form, where the languages are a dictionary
    keyed by name (`HelperConfig`). */
module HelperConfigModel {
  import opened Wrappers
  import opened PyDict
  import TaskConfigModel

  datatype LanguageConfig = LanguageConfig(
    name: string,
    templateDir: Option<string>,
    useDefaultTemplate: bool,
    build: seq<string>,
    run: seq<string>)

  /** `AtCoderHelperConfig` of the models layer. */
  datatype ConfigRecord = ConfigRecord(languages: seq<LanguageConfig>, defaultLanguage: string)

  /** The entity the use cases read and write. */
  datatype HelperConfig = HelperConfig(languages: map<string, LanguageConfig>, defaultLanguage: string)

  /** `LanguageConfig.from_dict`: name, build and run are required;
      template_dir defaults to None; use_default_template is the truth value
      of the entry, false when it is missing. Keyword arguments are evaluated
      name, template_dir, use_default_template, build, run. */
  function LanguageFromDict(d: PyMap): (r: Result<LanguageConfig, DictError>)
    ensures r.Success? <==>
              && "name" in d && d["name"].Str?
              && (Get(d, "template_dir").Null? || Get(d, "template_dir").Str?)
              && "build" in d && TaskConfigModel.IsStrList(d["build"])
              && "run" in d && TaskConfigModel.IsStrList(d["run"])
    ensures "name" !in d ==> r == Failure(MissingKey("name"))
    ensures "build" !in d || "run" !in d ==> r.Failure?
    ensures r.Success? ==>
              && "name" in d && d["name"] == Str(r.value.name)
              && r.value.templateDir == (if Get(d, "template_dir").Str? then Some(Get(d, "template_dir").s) else None)
              && r.value.useDefaultTemplate == Truthy(Get(d, "use_default_template"))
              && ("use_default_template" !in d ==> !r.value.useDefaultTemplate)
              && "build" in d && TaskConfigModel.ListOf(d["build"], r.value.build)
              && "run" in d && TaskConfigModel.ListOf(d["run"], r.value.run)
  {
    if "name" !in d then Failure(MissingKey("name"))
    else if !d["name"].Str? then Failure(WrongType("name"))
    else if !(Get(d, "template_dir").Null? || Get(d, "template_dir").Str?) then Failure(WrongType("template_dir"))
    else
      var templateDir := if Get(d, "template_dir").Str? then Some(Get(d, "template_dir").s) else None;
      match TaskConfigModel.RequiredStrList(d, "build")
      case Failure(e) => Failure(e)
      case Success(build) =>
        match TaskConfigModel.RequiredStrList(d, "run")
        case Failure(e) => Failure(e)
        case Success(run) =>
          Success(LanguageConfig(d["name"].s, templateDir, Truthy(Get(d, "use_default_template")), build, run))
  }

  /** Every entry is a dictionary that converts. */
  predicate EntriesConvert(items: seq<Value>)
  {
    forall j :: 0 <= j < |items| ==> items[j].Dict? && LanguageFromDict(items[j].entries).Success?
  }

  /** The error an entry that does not convert raises. */
  function EntryFailure(v: Value): DictError
  {
    if v.Dict? && LanguageFromDict(v.entries).Failure? then LanguageFromDict(v.entries).error
    else WrongType("languages")
  }

  /** The list comprehension over `config_dict["languages"]`: the first entry
      that fails stops it; otherwise one LanguageConfig per entry, in order. */
  function LanguagesFromList(items: seq<Value>): (r: Result<seq<LanguageConfig>, DictError>)
    ensures r.Success? <==>
              forall i :: 0 <= i < |items| ==> items[i].Dict? && LanguageFromDict(items[i].entries).Success?
    ensures r.Failure? ==>
              exists i :: 0 <= i < |items| && EntriesConvert(items[..i]) && r.error == EntryFailure(items[i])
    ensures r.Success? ==>
              && |r.value| == |items|
              && forall i :: 0 <= i < |items| ==> Success(r.value[i]) == LanguageFromDict(items[i].entries)
  {
    if items == [] then Success([])
    else if !items[0].Dict? then Failure(WrongType("languages"))
    else
      match LanguageFromDict(items[0].entries)
      case Failure(e) => assert items[..0] == []; Failure(e)
      case Success(first) =>
        match LanguagesFromList(items[1..])
        case Failure(e) =>
          FailureShifts(items, e);
          Failure(e)
        case Success(rest) => Success([first] + rest)
  }

  /** A first failing entry of the tail is one of the whole list once its
      head converts. */
  lemma FailureShifts(items: seq<Value>, e: DictError)
    requires items != [] && items[0].Dict? && LanguageFromDict(items[0].entries).Success?
    requires exists i :: 0 <= i < |items[1..]| && EntriesConvert(items[1..][..i]) && e == EntryFailure(items[1..][i])
    ensures exists i :: 0 <= i < |items| && EntriesConvert(items[..i]) && e == EntryFailure(items[i])
  {
    var i :| 0 <= i < |items[1..]| && EntriesConvert(items[1..][..i]) && e == EntryFailure(items[1..][i]);
    assert items[..i + 1] == [items[0]] + items[1..][..i];
    assert EntriesConvert(items[..i + 1]);
  }

  /** `AtCoderHelperConfig.from_dict`: the languages are converted first,
      then default_language is copied without being checked against them. */
  function ConfigFromDict(d: PyMap): (r: Result<ConfigRecord, DictError>)
    ensures r.Success? <==>
              && "languages" in d && d["languages"].List?
              && LanguagesFromList(d["languages"].items).Success?
              && "default_language" in d && d["default_language"].Str?
    ensures "languages" !in d ==> r == Failure(MissingKey("languages"))
    ensures "languages" in d && d["languages"].List? && LanguagesFromList(d["languages"].items).Failure? ==>
              r == Failure(LanguagesFromList(d["languages"].items).error)
    ensures ("languages" in d && d["languages"].List? && LanguagesFromList(d["languages"].items).Success?
             && "default_language" !in d) ==> r == Failure(MissingKey("default_language"))
    ensures r.Success? ==>
              && "languages" in d && d["languages"].List?
              && LanguagesFromList(d["languages"].items) == Success(r.value.languages)
              && "default_language" in d && d["default_language"] == Str(r.value.defaultLanguage)
  {
    if "languages" !in d then Failure(MissingKey("languages"))
    else if !d["languages"].List? then Failure(WrongType("languages"))
    else
      match LanguagesFromList(d["languages"].items)
      case Failure(e) => Failure(e)
      case Success(languages) =>
        if "default_language" !in d then Failure(MissingKey("default_language"))
        else if !d["default_language"].Str? then Failure(WrongType("default_language"))
        else Success(ConfigRecord(languages, d["default_language"].s))
  }

  /** Any string is accepted as the default language, whether or not one
      of the languages carries that name: once the languages convert, the
      result is those languages and that name. */
  lemma DefaultLanguageUnchecked(d: PyMap)
    requires "languages" in d && d["languages"].List? && LanguagesFromList(d["languages"].items).Success?
    requires "default_language" in d && d["default_language"].Str?
    ensures ConfigFromDict(d) == Success(ConfigRecord(LanguagesFromList(d["languages"].items).value, d["default_language"].s))
  {
  }

  /** For instance, "rust" as the default of a configuration with no languages. */
  lemma DefaultLanguageUncheckedExample()
    ensures ConfigFromDict(map["languages" := List([]), "default_language" := Str("rust")])
              == Success(ConfigRecord([], "rust"))
  {
  }
}
