/** The configuration use cases: choose the default language, read it back,
    list the languages, reset the configuration from the shipped default.
    One class serves the interactor
    (atcoder_helper/application/interactors/atcoder_helper_config.py), the
    identical use-case copy (atcoder_helper/usecases/atcoder_helper_config.py)
    and the service (atcoder_helper/services/atcoder_helper_config.py), which
    differ only in the read failures they catch (`CatchPolicy`). The
    stand-alone `config_use` of atcoder_helper/services/confg_use.py works on
    the list-shaped record instead and is modelled at the end. */
module ConfigUsecase {
  import opened Wrappers
  import opened Stores
  import opened HelperConfigModel

  /** `config.default_language = language`: nothing else changes. */
  function UseLanguage(c: HelperConfig, language: string): (r: HelperConfig)
    ensures r.languages == c.languages
    ensures r.defaultLanguage == language
  {
    c.(defaultLanguage := language)
  }

  /** Choosing the same language twice stores the same configuration. */
  lemma UseLanguageIdempotent(c: HelperConfig, language: string)
    ensures UseLanguage(UseLanguage(c, language), language) == UseLanguage(c, language)
  {
  }

  /** Only the last choice counts. */
  lemma UseLanguageLastWins(c: HelperConfig, first: string, second: string)
    ensures UseLanguage(UseLanguage(c, first), second) == UseLanguage(c, second)
  {
  }

  /** Choosing the language that is already the default changes nothing. */
  lemma UseCurrentLanguage(c: HelperConfig)
    ensures UseLanguage(c, c.defaultLanguage) == c
  {
  }

  /** `config.languages[config.default_language]`: a KeyError when the
      default names no configured language. */
  function DefaultLanguageOf(c: HelperConfig): (r: Result<LanguageConfig, AppError>)
    ensures r.Success? <==> c.defaultLanguage in c.languages
    ensures r.Success? ==> r.value == c.languages[c.defaultLanguage]
    ensures r.Failure? ==> r.error == KeyMissing(c.defaultLanguage)
  {
    if c.defaultLanguage in c.languages then Success(c.languages[c.defaultLanguage])
    else Failure(KeyMissing(c.defaultLanguage))
  }

  /** After choosing a configured language, reading the default gives that
      language's settings. */
  lemma UseThenDefault(c: HelperConfig, language: string)
    requires language in c.languages
    ensures DefaultLanguageOf(UseLanguage(c, language)) == Success(c.languages[language])
  {
  }

  class ConfigInteractor {
    const configRepo: Store<HelperConfig>
    const defaultConfigRepo: Store<HelperConfig>
    /** Which read failures become ConfigAccessError: ReadAndParse for the
        interactor and use-case copies, ReadOnly for the service. */
    const policy: CatchPolicy

    constructor (configRepo: Store<HelperConfig>, defaultConfigRepo: Store<HelperConfig>, policy: CatchPolicy)
      ensures this.configRepo == configRepo && this.defaultConfigRepo == defaultConfigRepo
      ensures this.policy == policy
    {
      this.configRepo := configRepo;
      this.defaultConfigRepo := defaultConfigRepo;
      this.policy := policy;
    }

    /** `config_use`: an unknown language is UndefinedLanguage and nothing
        is written; a known one is written back as the new default, the
        languages untouched. */
    method ConfigUse(language: string) returns (r: Outcome<AppError>)
      modifies configRepo
      ensures configRepo.writable == old(configRepo.writable)
      ensures !old(configRepo.cell).Holds? ==>
                r == Fail(ReadFailure(policy, ReadOf(old(configRepo.cell)).error)) && unchanged(configRepo)
      ensures old(configRepo.cell).Holds? && language !in old(configRepo.cell).value.languages ==>
                r == Fail(UndefinedLanguage) && unchanged(configRepo)
      ensures old(configRepo.cell).Holds? && language in old(configRepo.cell).value.languages ==>
                var updated := UseLanguage(old(configRepo.cell).value, language);
                (old(configRepo.writable) ==>
                   r == Pass && configRepo.cell == Holds(updated)
                   && configRepo.writes == old(configRepo.writes) + [updated])
                && (!old(configRepo.writable) ==> r == Fail(ConfigAccessError) && unchanged(configRepo))
    {
      var read := configRepo.Read();
      if read.Failure? {
        return Fail(ReadFailure(policy, read.error));
      }
      var config := read.value;
      if language !in config.languages {
        return Fail(UndefinedLanguage);
      }
      config := UseLanguage(config, language);
      var written := configRepo.Write(config);
      r := WriteFailure(written);
    }

    /** `config_default_language`. */
    method ConfigDefaultLanguage() returns (r: Result<LanguageConfig, AppError>)
      ensures !configRepo.cell.Holds? ==> r == Failure(ReadFailure(policy, ReadOf(configRepo.cell).error))
      ensures configRepo.cell.Holds? ==> r == DefaultLanguageOf(configRepo.cell.value)
    {
      var read := configRepo.Read();
      if read.Failure? {
        return Failure(ReadFailure(policy, read.error));
      }
      r := DefaultLanguageOf(read.value);
    }

    /** `config_languages`: the stored map itself. */
    method ConfigLanguages() returns (r: Result<map<string, LanguageConfig>, AppError>)
      ensures !configRepo.cell.Holds? ==> r == Failure(ReadFailure(policy, ReadOf(configRepo.cell).error))
      ensures configRepo.cell.Holds? ==> r == Success(configRepo.cell.value.languages)
    {
      var read := configRepo.Read();
      if read.Failure? {
        return Failure(ReadFailure(policy, read.error));
      }
      r := Success(read.value.languages);
    }

    /** `init_config`: copy the default configuration, unchanged, into the
        configuration store, once; a failed default read writes nothing. */
    method InitConfig() returns (r: Outcome<AppError>)
      modifies configRepo
      ensures configRepo.writable == old(configRepo.writable)
      ensures !old(defaultConfigRepo.cell).Holds? ==>
                r == Fail(ReadFailure(policy, ReadOf(old(defaultConfigRepo.cell)).error)) && unchanged(configRepo)
      ensures old(defaultConfigRepo.cell).Holds? && old(configRepo.writable) ==>
                r == Pass && configRepo.cell == old(defaultConfigRepo.cell)
                && configRepo.writes == old(configRepo.writes) + [old(defaultConfigRepo.cell).value]
      ensures old(defaultConfigRepo.cell).Holds? && !old(configRepo.writable) ==>
                r == Fail(ConfigAccessError) && unchanged(configRepo)
    {
      var read := defaultConfigRepo.Read();
      if read.Failure? {
        return Fail(ReadFailure(policy, read.error));
      }
      var written := configRepo.Write(read.value);
      r := WriteFailure(written);
    }
  }

  /** The interactor and the service answer alike except on an unparsable
      configuration, which the service lets through as a ParseError. */
  lemma PoliciesDifferOnlyOnParseErrors(e: RepoError)
    ensures e != ParseError ==> ReadFailure(ReadAndParse, e) == ReadFailure(ReadOnly, e)
    ensures ReadFailure(ReadAndParse, ParseError) == ConfigAccessError
    ensures ReadFailure(ReadOnly, ParseError) == Uncaught(ParseError)
  {
  }

  // ---------------------------------------------------------------------
  // The stand-alone `config_use` over the list-shaped record

  /** The dictionary comprehension `{l["name"]: l for l in languages}` that
      turns the stored list into the name-keyed map: a later entry with the
      same name replaces an earlier one. */
  function LanguageMap(ls: seq<LanguageConfig>): (m: map<string, LanguageConfig>)
    ensures forall i :: 0 <= i < |ls| ==> ls[i].name in m
    ensures forall name :: name in m ==> m[name].name == name && m[name] in ls
  {
    if ls == [] then map[]
    else LanguageMap(ls[..|ls| - 1])[ls[|ls| - 1].name := ls[|ls| - 1]]
  }

  /** A language of that name is in the list. */
  predicate HasLanguage(ls: seq<LanguageConfig>, name: string)
  {
    exists i :: 0 <= i < |ls| && ls[i].name == name
  }

  /** The record in the entity's form. */
  function ToEntity(c: ConfigRecord): (e: HelperConfig)
    ensures e.defaultLanguage == c.defaultLanguage
    ensures forall name :: name in e.languages <==> HasLanguage(c.languages, name)
  {
    HelperConfig(LanguageMap(c.languages), c.defaultLanguage)
  }

  /** The default-language update on the record. */
  function UseRecordLanguage(c: ConfigRecord, language: string): (r: ConfigRecord)
    ensures r.languages == c.languages
    ensures r.defaultLanguage == language
  {
    c.(defaultLanguage := language)
  }

  /** The record update and the entity update agree. */
  lemma UseRecordLanguageAgrees(c: ConfigRecord, language: string)
    ensures ToEntity(UseRecordLanguage(c, language)) == UseLanguage(ToEntity(c), language)
  {
  }

  lemma UseRecordLanguageIdempotent(c: ConfigRecord, language: string)
    ensures UseRecordLanguage(UseRecordLanguage(c, language), language) == UseRecordLanguage(c, language)
  {
  }

  /** The two operands of the membership test in confg_use.py: the
      language name and the elements of `config.languages`. */
  datatype PyObject = PyStr(s: string) | PyLanguage(l: LanguageConfig)

  /** Python's `==` between them: strings compare by value and the
      `LanguageConfig` dataclass compares field by field with another
      instance of its class; a str and a dataclass instance are never
      equal. */
  predicate PyEq(a: PyObject, b: PyObject)
  {
    match (a, b)
    case (PyStr(x), PyStr(y)) => x == y
    case (PyLanguage(x), PyLanguage(y)) => x == y
    case _ => false
  }

  /** The list `config.languages` as Python objects. */
  function Boxed(ls: seq<LanguageConfig>): (os: seq<PyObject>)
    ensures |os| == |ls|
    ensures forall i :: 0 <= i < |ls| ==> os[i] == PyLanguage(ls[i])
  {
    seq(|ls|, i requires 0 <= i < |ls| => PyLanguage(ls[i]))
  }

  /** `x in items` for a list. */
  predicate PyIn(x: PyObject, items: seq<PyObject>)
  {
    exists i :: 0 <= i < |items| && PyEq(items[i], x)
  }

  /** The membership test as written: a name is never "in" a list of
      language records, not even the name of one of them. */
  lemma NameNeverInLanguageList(ls: seq<LanguageConfig>, language: string)
    ensures !PyIn(PyStr(language), Boxed(ls))
  {
    forall i | 0 <= i < |ls|
      ensures !PyEq(Boxed(ls)[i], PyStr(language))
    {
      assert Boxed(ls)[i] == PyLanguage(ls[i]);
    }
  }

  /** A concrete configuration whose own default language is rejected by
      the membership test as written and accepted by the name test. */
  lemma ConfgUseRejectsDefinedLanguage()
    ensures var python := LanguageConfig("python", None, false, [], ["python3", "main.py"]);
            var c := ConfigRecord([python], "python");
            HasLanguage(c.languages, "python") && !PyIn(PyStr("python"), Boxed(c.languages))
  {
    var python := LanguageConfig("python", None, false, [], ["python3", "main.py"]);
    assert [python][0].name == "python";
    NameNeverInLanguageList([python], "python");
  }

  /** atcoder_helper/services/confg_use.py as written: the membership test
      compares the name with the language records, so once the read
      succeeds the result is UndefinedLanguage and nothing is written
      (`NameNeverInLanguageList`). */
  method ConfgUseAsWritten(language: string, configRepo: Store<ConfigRecord>) returns (r: Outcome<AppError>)
    modifies configRepo
    ensures !old(configRepo.cell).Holds? ==>
              r == Fail(ReadFailure(ReadOnly, ReadOf(old(configRepo.cell)).error)) && unchanged(configRepo)
    ensures old(configRepo.cell).Holds? ==> r == Fail(UndefinedLanguage) && unchanged(configRepo)
  {
    var read := configRepo.Read();
    if read.Failure? {
      return Fail(ReadFailure(ReadOnly, read.error));
    }
    var config := read.value;
    NameNeverInLanguageList(config.languages, language);
    if !PyIn(PyStr(language), Boxed(config.languages)) {
      return Fail(UndefinedLanguage);
    }
    assert false;
  }

  /** confg_use.py with the membership test by name: the same steps and
      error translation as the service's `config_use`. */
  method ConfgUse(language: string, configRepo: Store<ConfigRecord>) returns (r: Outcome<AppError>)
    modifies configRepo
    ensures configRepo.writable == old(configRepo.writable)
    ensures !old(configRepo.cell).Holds? ==>
              r == Fail(ReadFailure(ReadOnly, ReadOf(old(configRepo.cell)).error)) && unchanged(configRepo)
    ensures old(configRepo.cell).Holds? && !HasLanguage(old(configRepo.cell).value.languages, language) ==>
              r == Fail(UndefinedLanguage) && unchanged(configRepo)
    ensures old(configRepo.cell).Holds? && HasLanguage(old(configRepo.cell).value.languages, language) ==>
              var updated := UseRecordLanguage(old(configRepo.cell).value, language);
              (old(configRepo.writable) ==>
                 r == Pass && configRepo.cell == Holds(updated)
                 && configRepo.writes == old(configRepo.writes) + [updated])
              && (!old(configRepo.writable) ==> r == Fail(ConfigAccessError) && unchanged(configRepo))
  {
    var read := configRepo.Read();
    if read.Failure? {
      return Fail(ReadFailure(ReadOnly, read.error));
    }
    var config := read.value;
    if !HasLanguage(config.languages, language) {
      return Fail(UndefinedLanguage);
    }
    config := UseRecordLanguage(config, language);
    var written := configRepo.Write(config);
    r := WriteFailure(written);
  }

  /** The corrected test accepts exactly the languages the entity form
      has, so the stand-alone `config_use` and the service's agree. */
  lemma ConfgUseMatchesService(c: ConfigRecord, language: string)
    ensures HasLanguage(c.languages, language) <==> language in ToEntity(c).languages
    ensures ToEntity(UseRecordLanguage(c, language)) == UseLanguage(ToEntity(c), language)
  {
    UseRecordLanguageAgrees(c, language);
  }
}
