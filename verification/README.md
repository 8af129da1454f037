# atcoder_helper, modelled in Dafny

atcoder_helper is a command-line companion for AtCoder contests. It fetches
a task's sample cases from the site into a local test-case file. It builds
and runs the user's program on every case and judges each run as AC, WA,
ERROR or JUSTSHOW. It prints a per-case report and a summary, and it keeps
a small per-user configuration of languages and a default language.

This project models the deterministic logic under that plumbing:

- **The verdict for one run** (`Classifier`). `Classify` compares after
  `str.rstrip()`, as in atcoder_helper/program_executor.py.
  `ClassifyLiteral` compares the strings as they are, as in
  models/test_case.py.
- **The program executor** (`ProgramExecution`). It is fixed to one build
  and one run command. The processes it spawns are a `Machine`: total
  functions from a command line (and stdin) to an exit code and outputs.
- **The suite runner** (`SuiteRunner`). It reads the config and the cases,
  builds once, runs each case and prints its result, then prints the
  summary. The legacy runner (`LegacyRunner`) has no build step.
- **The observable history** (`RunJournal`). One `Journal` records every
  call made on the executor and every printed `Line`, in order. This is how
  "build once before any case", "each case once, in order" and "each result
  printed before the next case runs" are stated.
- **The printed report** (`Report`), as abstract lines.
- **The record conversions** between dictionaries and test cases
  (`TestCaseDict`), task configs (`TaskConfigModel`) and language configs
  (`HelperConfigModel`).
- **The stores** (`Stores`). Each is an in-memory cell that reads as a
  value, a ReadError or a ParseError, and whose writes succeed or raise
  WriteError.
- **The use-case layers** that translate store errors into
  ConfigAccessError, AtcoderAccessError or UndefinedLanguage: fetching a
  task (`FetchTask`) and the configuration commands (`ConfigUsecase`).
- **Helpers**: the URL builders (`AtCoderUrls`), `filter_out_none`
  (`PyDict`), and Python's `rstrip` and `:<15` padding (`PyText`).

## Model

| member | source | states |
|---|---|---|
| PyText.Rstrip | atcoder_helper/program_executor.py:93 | `s.rstrip()` is a prefix of `s` that does not end in whitespace, and everything it drops is whitespace (the full `str.isspace` set) |
| PyText.RstripUnique | atcoder_helper/program_executor.py:93 | those three properties determine the stripped string |
| PyText.RstripIdempotent | atcoder_helper/program_executor.py:93 | stripping twice is stripping once |
| PyText.RstripIgnoresTrailingSpace | atcoder_helper/program_executor.py:93 | appending whitespace never changes the stripped text |
| PyText.RstripEqualIff | atcoder_helper/program_executor.py:93 | two texts strip equal exactly when they differ only in trailing whitespace |
| PyText.Repeat | atcoder_helper/application/interactors/execute_test.py:87 | `c * n` has length n and holds only c; it builds the 35-dash rule printed at that line (RuleText) |
| PyText.PadRight | atcoder_helper/application/interactors/execute_test.py:96 | `f"{s:<w}"` starts with s, pads with spaces to w and never truncates |
| TestCaseEntity.Colour | atcoder_helper/entities/atcoder_test_case.py:26-31 | each status's colour is an ANSI `ESC [ n m` escape |
| TestCaseEntity.Dyed | atcoder_helper/entities/atcoder_test_case.py:20-33 | `dyed` is the colour, then the status name verbatim, then the reset |
| TestCaseEntity.UndyeDyed | atcoder_helper/entities/atcoder_test_case.py:23-33 | the status name can be read back from every dyed text |
| TestCaseEntity.ColourInjective | atcoder_helper/entities/atcoder_test_case.py:26-31 | different statuses have different colours and different dyed texts |
| Classifier.Judge | atcoder_helper/program_executor.py:77-107 | exactly one status for every outcome: ERROR iff the exit code is nonzero; JUSTSHOW iff exit 0 and no expected output; AC or WA by the comparison otherwise. The name is the case's and actual is stdout on every branch. error is stderr only for ERROR. expected is set only for WA |
| Classifier.Classify | atcoder_helper/program_executor.py:64-107 | AC iff exit 0, an expected output, and `expected.rstrip() == stdout.rstrip()`; every result can be rendered |
| Classifier.ClassifyLiteral | models/test_case.py:61-75 | AC iff exit 0, an expected output, and exact equality with stdout |
| Classifier.ExitCodePrecedence | atcoder_helper/program_executor.py:77-83 | a nonzero exit is ERROR with stdout and stderr whatever the expected output; both revisions agree on it |
| Classifier.LiteralRefinesStripped | models/test_case.py:72-75 | the two revisions differ only where the literal one says WA and the stripped one says AC |
| Classifier.TrailingNewlineExample | atcoder_helper/program_executor.py:93 | expected "3\n" against output "3" is AC after stripping and WA literally |
| Classifier.StrippedAcceptsTrailingSpace | atcoder_helper/program_executor.py:93-99 | output that differs from the expected text only by trailing whitespace, on either side, is AC |
| PyDict.Get | atcoder_helper/models/atcoder_helper_config.py:24 | `dict.get` is the value, or None for a missing key |
| PyDict.FilterOutNone | atcoder_helper/repositories/utils.py:11-13 | no None values; every kept entry is an input entry unchanged; every non-None entry is kept |
| PyDict.FilterOutNoneIdempotent | atcoder_helper/repositories/utils.py:13 | filtering twice equals filtering once |
| PyDict.FilterOutNoneFixesNoneFree | atcoder_helper/repositories/utils.py:13 | a map without None values is returned as it is |
| TestCaseDict.ToDict | atcoder_helper/models/test_case.py:65-70 | keys name and input, plus expected exactly when there is an expected output |
| TestCaseDict.LegacyToDict | models/test_case.py:47-52 | the "expected" key is always written, as None for a just-show case |
| TestCaseDict.FromDict | models/test_case.py:54-59 | succeeds iff name and input are strings (and expected, when present); given is input + "\n", expected is value + "\n" or absent; a missing key is reported in argument order |
| TestCaseDict.RoundTrip | atcoder_helper/models/test_case.py:65-79 | reading back a written case keeps the name and appends "\n" to the input and, when present, to the expected output |
| TestCaseDict.LegacyRoundTripFails | models/test_case.py:47-59 | with the older `to_dict`, a case without expected output cannot be read back (`None + "\n"`) |
| TestCaseDict.LegacyRoundTripWithExpected | models/test_case.py:47-59 | with an expected output the two `to_dict` revisions agree and round-trip |
| TestCaseDict.FromDictExamples | tests/test_models/test_test_cases.py:8-26 | the two cases of the test file |
| TaskConfigModel.Strings | atcoder_helper/models/task_config.py:27-28 | a list of strings is copied verbatim, in order |
| TaskConfigModel.OptionalStr | atcoder_helper/models/task_config.py:23-26 | a missing or None contest/task is absent, a string is copied; it succeeds exactly when the entry is missing, None or a string |
| TaskConfigModel.RequiredStrList | atcoder_helper/models/task_config.py:27-28 | build and run are required: a missing key is a failure, not a default; on success the list is copied in order |
| TaskConfigModel.FromDict | atcoder_helper/models/task_config.py:19-29 | succeeds exactly when contest and task are missing, None or strings and build and run are present lists of strings; contest and task copied when present and absent otherwise; build and run copied verbatim; a missing build or run fails |
| TaskConfigModel.FromDictExample | tests/test_models/test_task_config.py:6-18 | the dictionary of the test maps to the equal record |
| HelperConfigModel.LanguageFromDict | atcoder_helper/models/atcoder_helper_config.py:19-28 | succeeds exactly when name is a string, template_dir is missing, None or a string, and build and run are lists of strings; name, build and run copied and required; template_dir absent when missing; use_default_template is the truth value of the entry, false when missing |
| HelperConfigModel.LanguagesFromList | atcoder_helper/models/atcoder_helper_config.py:42-45 | succeeds exactly when every entry is a dictionary that converts, giving one LanguageConfig per entry in order; otherwise the error is that of an entry all of whose predecessors convert |
| HelperConfigModel.ConfigFromDict | atcoder_helper/models/atcoder_helper_config.py:38-47 | succeeds exactly when languages is a list whose entries convert and default_language is a string; a missing languages or default_language gives MissingKey, a failing entry gives its error; the languages converted as a list; default_language copied unchanged |
| HelperConfigModel.DefaultLanguageUnchecked | atcoder_helper/models/atcoder_helper_config.py:38-47 | for every dictionary whose languages convert and whose default_language is a string, the result is those languages with that name, whether or not any language carries it |
| HelperConfigModel.DefaultLanguageUncheckedExample | atcoder_helper/models/atcoder_helper_config.py:46 | a configuration with no languages and default "rust" is accepted as such |
| AtCoderUrls.ContestUrl | atcoder_helper/infrastructure/utils.py:14-23 | "https://atcoder.jp/contests/" followed by the contest |
| AtCoderUrls.TaskUrl | atcoder_helper/infrastructure/utils.py:26-36 | the contest page, then "/tasks/", the contest, "_" and the task |
| AtCoderUrls.SubmitUrl | atcoder_helper/infrastructure/utils.py:39-48 | the contest page followed by "/submit" |
| AtCoderUrls.ContestOfContestUrl | atcoder_helper/infrastructure/utils.py:23 | the contest can be read back from its page address |
| AtCoderUrls.ContestUrlInjective | atcoder_helper/infrastructure/utils.py:23 | different contests have different pages |
| AtCoderUrls.TaskUrlInjective | atcoder_helper/infrastructure/utils.py:36 | within a contest, different tasks have different pages |
| AtCoderUrls.LoginUrlValue | atcoder_helper/infrastructure/utils.py:10-11 | the login page is "https://atcoder.jp/login" |
| Stores.ReadOf | atcoder_helper/infrastructure/atcoder_helper_config_repo.py:22-51 | `read()` yields the stored value, ReadError when the file cannot be read, ParseError when it does not parse |
| Stores.Store.Read | atcoder_helper/infrastructure/atcoder_helper_config_repo.py:22-51 | reading returns what the cell holds and changes nothing |
| Stores.Store.Write | atcoder_helper/infrastructure/atcoder_helper_config_repo.py:53-68 | a successful write replaces the content and is logged once; a failed one raises WriteError and changes nothing |
| Stores.ReadFailure | atcoder_helper/application/interactors/atcoder_helper_config.py:66-69 | a ReadError is always a ConfigAccessError; a ParseError is one only in layers that catch it, and otherwise propagates |
| Stores.WriteFailure | atcoder_helper/application/interactors/fetch_task.py:75-78 | a WriteError is a ConfigAccessError; a successful write is success |
| RunJournal.Journal.Print | atcoder_helper/application/interactors/execute_test.py:87-88 | printing appends exactly one line to the history |
| RunJournal.Journal.Record | atcoder_helper/application/interactors/execute_test.py:81-89 | a call on the executor appends exactly that call to the history |
| RunJournal.PrintsIndex | atcoder_helper/application/interactors/execute_test.py:112-116 | printing a list of lines records each line in order |
| RunJournal.ExecuteCalls | atcoder_helper/application/interactors/execute_test.py:86-89 | one `execute` call per case, in case order |
| RunJournal.CallsAppend | atcoder_helper/application/interactors/execute_test.py:81-92 | the calls of two histories in a row are the calls of each, in order |
| RunJournal.PrintsCallNothing | atcoder_helper/application/interactors/execute_test.py:94-116 | printing calls nothing on the executor |
| Report.StatusText | atcoder_helper/application/interactors/execute_test.py:96 | the status row is the name padded to 15, ": ", then the dyed status |
| Report.StatusLines | atcoder_helper/application/interactors/execute_test.py:115-116 | one status row per result, in order |
| Report.SummaryLines | atcoder_helper/application/interactors/execute_test.py:112-116 | the double rule, "SUMMARY:", then row i is result i's status row |
| Report.DetailByStatus | atcoder_helper/application/interactors/execute_test.py:98-110 | AC adds nothing; JUSTSHOW shows the output; ERROR shows the error; WA shows expected then actual; every renderable non-AC result shows something |
| Report.ShowDetail | services/execute_test.py:20-32 | prints exactly the detail lines; fails ("internal error") exactly for WA without an expected output |
| Report.ShowResult | atcoder_helper/application/interactors/execute_test.py:94-110 | prints the rule, the status row and the detail, and nothing else; fails exactly for WA without an expected output |
| Report.ShowStatusLines | atcoder_helper/application/interactors/execute_test.py:115-116 | prints one status row per result, in order |
| Report.ShowSummary | atcoder_helper/application/interactors/execute_test.py:112-116 | prints exactly the summary lines |
| ProgramExecution.Executor.constructor | atcoder_helper/program_executor.py:48-51 | the executor keeps exactly the given build and run commands |
| ProgramExecution.Executor.Build | atcoder_helper/program_executor.py:53-62 | true iff the build command exits with 0; records one build call |
| ProgramExecution.Executor.Execute | atcoder_helper/program_executor.py:64-107 | the result is the classification of running the run command on the case's input; records one execute call |
| ProgramExecution.NewExecutor | atcoder_helper/application/interactors/execute_test.py:35-38 | a new executor for exactly the given commands; records the builder call |
| SuiteRunner.Results | atcoder_helper/application/interactors/execute_test.py:85-90 | one result per case, result i being case i's classification |
| SuiteRunner.CasesEventsAppend | atcoder_helper/application/interactors/execute_test.py:86-91 | the loop's history over two runs of cases is the two histories in a row |
| SuiteRunner.RenderedBeforeNext | atcoder_helper/application/interactors/execute_test.py:89-91 | each case's result is fully printed between its own `execute` and the next case's |
| SuiteRunner.CasesCalls | atcoder_helper/application/interactors/execute_test.py:86-89 | the loop calls `execute` once per case, in stored order, and nothing else |
| SuiteRunner.SuiteCalls | atcoder_helper/application/interactors/execute_test.py:81-92 | a run builds one executor from exactly the config's build and run commands, calls `build` once before anything else reaches it, then `execute` once per case in order |
| SuiteRunner.ExecuteTestInteractor.ExecuteTest | atcoder_helper/application/interactors/execute_test.py:69-92 | a ReadError or ParseError from either read is a ConfigAccessError with nothing built, run or printed; otherwise the history is exactly builder, build, the loop and the summary, whatever the build's result |
| SuiteRunner.ExecuteTestInteractor.RunSuite | atcoder_helper/services/execute_test.py:90-101 | after the reads: builder, build (result ignored), the loop, then the summary of the loop's results |
| SuiteRunner.ExecuteTestInteractor.RunCases | atcoder_helper/usecases/execute_test.py:94-100 | the results are the cases' results in order; each iteration prints the rule and "executing", calls `execute`, then prints the result |
| LegacyRunner.ExecuteCase | models/test_case.py:61-75 | runs `make -s run` on the input and classifies literally; records one execute call |
| LegacyRunner.LegacyResults | services/execute_test.py:12-34 | one result per case, in order |
| LegacyRunner.LegacyCalls | services/execute_test.py:14-16 | each case is run exactly once, in list order, and nothing is built |
| LegacyRunner.LegacyStatusRow | services/execute_test.py:17 | the status row uses the case's own name, which is the result's name |
| LegacyRunner.ExecuteAndShow | services/execute_test.py:12-34 | returns the results in case order; per case: the rule, the run, the status row, the detail |
| LegacyRunner.LegacyExecuteTest | services/execute_test.py:44-49 | a failed read propagates untranslated with nothing run; otherwise every case runs, then the summary |
| FetchTask.AtCoderSite.FetchTestCases | atcoder_helper/application/interactors/fetch_task.py:69-71 | a fetch returns the site's answer to that request and records the request |
| FetchTask.ResolveTask | atcoder_helper/application/interactors/fetch_task.py:96-105 | an explicit contest (task) wins over the config's; the result exists iff both are resolved; otherwise ConfigAccessError |
| FetchTask.ExplicitArgumentsWin | atcoder_helper/services/fetch_task.py:39-40 | with both arguments given the config is irrelevant |
| FetchTask.ConfigFallback | atcoder_helper/services/fetch_task.py:39-46 | without arguments the config's contest and task are used, and their absence is an error |
| FetchTask.TaskInfo | atcoder_helper/application/interactors/fetch_task.py:80-105 | a failed read of the task config is translated by the layer's policy; otherwise resolution decides |
| FetchTask.TaskInfoLayers | atcoder_helper/services/fetch_task.py:34-37 | the two layers resolve alike except that the service lets a ParseError through |
| FetchTask.InteractorFetchFailure | atcoder_helper/application/interactors/fetch_task.py:72-73 | a ConnectionError or ParseError from the fetch is an AtcoderAccessError; anything else propagates |
| FetchTask.ServiceFetchFailure | atcoder_helper/services/fetch_task.py:50-51 | only a ReadError from the fetch is an AtcoderAccessError |
| FetchTask.FetchTaskInteractor.GetTaskInfo | atcoder_helper/application/interactors/fetch_task.py:80-105 | reads the task config; a ReadError or ParseError is a ConfigAccessError; then resolves |
| FetchTask.FetchTaskInteractor.FetchTask | atcoder_helper/application/interactors/fetch_task.py:46-78 | each failure stops all later steps. A resolution failure means no request and no write. A session ReadError is a ConfigAccessError and nothing is fetched. A fetch failure is translated and nothing is written. Otherwise exactly one request, with the session, and the fetched list written unchanged, once; a WriteError is a ConfigAccessError |
| FetchTask.ServiceFetchTask | atcoder_helper/services/fetch_task.py:16-56 | the same steps with the service's translations and a request without a session |
| ConfigUsecase.UseLanguage | atcoder_helper/application/interactors/atcoder_helper_config.py:48 | setting the default language leaves the languages map as it was |
| ConfigUsecase.UseLanguageIdempotent | atcoder_helper/services/confg_use.py:27-28 | choosing the same language twice stores the same configuration |
| ConfigUsecase.UseLanguageLastWins | atcoder_helper/usecases/atcoder_helper_config.py:109 | of two choices only the last counts |
| ConfigUsecase.UseCurrentLanguage | atcoder_helper/usecases/atcoder_helper_config.py:109 | choosing the current default changes nothing |
| ConfigUsecase.DefaultLanguageOf | atcoder_helper/application/interactors/atcoder_helper_config.py:71 | `languages[default_language]`, and a KeyError exactly when the default names no configured language |
| ConfigUsecase.UseThenDefault | atcoder_helper/usecases/atcoder_helper_config.py:109-132 | after choosing a configured language, the default read back is that language's settings |
| ConfigUsecase.ConfigInteractor.ConfigUse | atcoder_helper/application/interactors/atcoder_helper_config.py:36-55 | a failed read is translated by the layer's policy and nothing is written. An unknown language is UndefinedLanguage and nothing is written. A known one is written back once as the new default, languages unchanged. A WriteError is a ConfigAccessError and leaves the store as it was |
| ConfigUsecase.ConfigInteractor.ConfigDefaultLanguage | atcoder_helper/application/interactors/atcoder_helper_config.py:57-71 | a failed read is translated by the layer's policy; otherwise `languages[default_language]` or its KeyError |
| ConfigUsecase.ConfigInteractor.ConfigLanguages | atcoder_helper/services/atcoder_helper_config.py:82-96 | the stored languages map, unchanged, or the translated read failure |
| ConfigUsecase.ConfigInteractor.InitConfig | atcoder_helper/usecases/atcoder_helper_config.py:150-166 | a failed default read is translated and nothing is written; otherwise the default configuration is written once, unchanged; a WriteError is a ConfigAccessError |
| ConfigUsecase.PoliciesDifferOnlyOnParseErrors | atcoder_helper/services/atcoder_helper_config.py:63-64 | the service catches ReadError but not ParseError; otherwise it translates like the interactor |
| ConfigUsecase.LanguageMap | atcoder_helper/infrastructure/atcoder_helper_config_repo.py:39-41 | every listed language has an entry under its name; every entry is a listed language under its own name |
| ConfigUsecase.ToEntity | atcoder_helper/infrastructure/atcoder_helper_config_repo.py:38-47 | the map form has a language exactly when the list names one; the default is kept |
| ConfigUsecase.UseRecordLanguage | atcoder_helper/services/confg_use.py:27 | only default_language changes; the language list is untouched |
| ConfigUsecase.UseRecordLanguageAgrees | atcoder_helper/services/confg_use.py:27 | the update on the list form and on the map form agree |
| ConfigUsecase.UseRecordLanguageIdempotent | atcoder_helper/services/confg_use.py:27-28 | applying the same language twice leaves the same stored config |
| ConfigUsecase.Boxed | atcoder_helper/services/confg_use.py:24 | the list of language records as Python objects, one per record, in order |
| ConfigUsecase.NameNeverInLanguageList | atcoder_helper/services/confg_use.py:24 | as written, a language name is never `in` the list of language records |
| ConfigUsecase.ConfgUseRejectsDefinedLanguage | atcoder_helper/services/confg_use.py:24-25 | a configuration whose own default language is rejected by the test as written and accepted by name |
| ConfigUsecase.ConfgUseAsWritten | atcoder_helper/services/confg_use.py:13-30 | as written: a ReadError is a ConfigAccessError; once the read succeeds the result is always UndefinedLanguage and nothing is written |
| ConfigUsecase.ConfgUse | atcoder_helper/services/confg_use.py:13-30 | with the membership test by name: an unknown language is UndefinedLanguage with no write; a known one is written back once as the default, languages untouched; a ReadError or WriteError is a ConfigAccessError |
| ConfigUsecase.ConfgUseMatchesService | atcoder_helper/services/atcoder_helper_config.py:58-62 | the corrected test accepts exactly the languages of the map form, and its update matches the service's |

## Left out

- Process spawning: `subprocess.run` becomes the `Machine` parameter. A run is deterministic, and spawn failures and timeouts are not modelled (the source has none).
- Terminal output: lines are abstract `Line` values. `Rule` and `DoubleRule` stand for `Report.RuleText` (35 dashes) and `Report.DoubleRuleText` (40 equals signs). `Indented` stands for `textwrap.indent(text, "       >")` without modelling its line splitting. The colour escapes are modelled, the terminal is not.
- Error messages: the model keeps the error kinds, not their texts. "contest is not set" and "task is not set" are both ConfigAccessError, so their order (contest first) is not observable here.
- HTTP, HTML scraping, login and the pickled session: `AtCoderSite.pages` is a total function from a request to a list of cases or a repository error. The session store is a `Store<Session>`.
- YAML files and pydantic: every store is an in-memory `Store<T>` whose read yields a value, ReadError or ParseError. atcoder_helper/repositories/atcoder_helper_config_repo.py and repositories/test_case.py are not part of this model. They raise the OS's own exceptions rather than ReadError, and the model does not follow them there.
- Dictionary values of the wrong type become `WrongType`. Python would copy some of them unchecked (a non-string `name`, say) and fail later or never. Floats and dictionary order are not represented.
- The three suite runners (application/interactors, services and usecases execute_test.py) are line-for-line the same and are one class. `ExecuteTest`, `RunSuite` and `RunCases` are the reads, the rest and the loop of one `execute_test`.
- The executor builder of the service layer is a constructor argument. `NewExecutor` stands for it and for `ControllerBuilderImpl.build`.
- services/execute_test.py imports `TestCase` from `atcoder_helper.models.test_case`. The model takes it to be the `TestCase` of models/test_case.py, the only one with `execute`. Its repository's read errors propagate untranslated as `Uncaught`.
- atcoder_helper/services/fetch_task.py:32 constructs `TestCaseRepository()` without the file name it requires. The model gives the service a test-case store instead of reproducing the crash.
- atcoder_helper/services/atcoder_helper_config.py imports `ConfigRepository` and `ConfigRepositoryImpl`, which its repository module does not define. The model follows its tests, which use the name-keyed configuration.
- atcoder_helper/services/confg_use.py writes with `config.to_dict()`, which the list-shaped configuration does not define. `ConfgUse` writes through the store.
- The one-call wrappers atcoder_helper/services/config_languages.py and config_default_language.py are covered by `ConfigInteractor.ConfigLanguages` and `ConfigDefaultLanguage`. They are not modelled separately.

## Findings

| source | as written | input that shows it | evidently intended | confidence | as-written member | corrected member |
|---|---|---|---|---|---|---|
| models/test_case.py:47-59 | `to_dict` always writes "expected", as None for a case without expected output, and `from_dict` then computes `None + "\n"` | `TestCase("a", "1", None)` written and read back: a TypeError | omit the key when there is no expected output, as atcoder_helper/models/test_case.py:67-68 does | high, not executed | TestCaseDict.LegacyRoundTripFails | TestCaseDict.RoundTrip |
| atcoder_helper/services/confg_use.py:24 | `language not in config.languages` tests a str against a list of `LanguageConfig` dataclass instances, which are never equal to a str | a stored config with languages `[python]` and default "python"; `config_use("python")` raises UndefinedLanguage | test the language names, as the services and interactor versions do through the name-keyed map | high, not executed | ConfigUsecase.ConfgUseAsWritten | ConfigUsecase.ConfgUse |
