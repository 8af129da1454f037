/** Fetching a task's sample cases: resolve contest and task (explicit
    arguments win over the task config), fetch the cases from AtCoder, write
    them to the local test-case store. Two layers:
    `FetchTaskInteractor` (atcoder_helper/application/interactors/fetch_task.py)
    and the older `fetch_task` (atcoder_helper/services/fetch_task.py). */
module FetchTask {
  import opened Wrappers
  import opened TestCaseEntity
  import opened Stores
  import opened TaskConfigModel

  /** A logged-in HTTP session, as stored by the session repository. */
  datatype Session = Session(id: nat)

  /** One `fetch_test_cases` request: the session (the service layer sends
      none), the contest and the task. */
  datatype Request = Request(session: Option<Session>, contest: string, task: string)

  /** AtCoder's task pages as seen through `fetch_test_cases`: what each
      request yields. `requests` records every request made, in order. */
  class AtCoderSite {
    const pages: Request -> Result<seq<TestCase>, RepoError>
    var requests: seq<Request>

    constructor (pages: Request -> Result<seq<TestCase>, RepoError>)
      ensures this.pages == pages && requests == []
    {
      this.pages := pages;
      requests := [];
    }

    method FetchTestCases(q: Request) returns (r: Result<seq<TestCase>, RepoError>)
      modifies this
      ensures r == pages(q)
      ensures requests == old(requests) + [q]
    {
      requests := requests + [q];
      r := pages(q);
    }
  }

  /** The contest/task choice of `_get_task_info` and of the service:
      an explicit argument wins, otherwise the config's value; whichever is
      still missing is a ConfigAccessError. */
  function ResolveTask(config: TaskConfig, contest: Option<string>, task: Option<string>): (r: Result<(string, string), AppError>)
    ensures r.Success? <==> (contest.Some? || config.contest.Some?) && (task.Some? || config.task.Some?)
    ensures r.Failure? ==> r.error == ConfigAccessError
    ensures r.Success? ==>
              r.value.0 == (if contest.Some? then contest.value else config.contest.value)
              && r.value.1 == (if task.Some? then task.value else config.task.value)
  {
    var c := if contest.None? then config.contest else contest;
    var t := if task.None? then config.task else task;
    if c.None? then Failure(ConfigAccessError)
    else if t.None? then Failure(ConfigAccessError)
    else Success((c.value, t.value))
  }

  /** Explicit arguments make the config's contest and task irrelevant. */
  lemma ExplicitArgumentsWin(config: TaskConfig, other: TaskConfig, contest: string, task: string)
    ensures ResolveTask(config, Some(contest), Some(task)) == Success((contest, task))
    ensures ResolveTask(config, Some(contest), Some(task)) == ResolveTask(other, Some(contest), Some(task))
  {
  }

  /** Without arguments the config alone decides. */
  lemma ConfigFallback(config: TaskConfig)
    ensures ResolveTask(config, None, None).Success? <==> config.contest.Some? && config.task.Some?
    ensures config.contest.Some? && config.task.Some? ==>
              ResolveTask(config, None, None) == Success((config.contest.value, config.task.value))
  {
  }

  /** Reading the task config and resolving: the read failures a layer
      catches become ConfigAccessError, the others propagate. */
  function TaskInfo(cell: Stored<TaskConfig>, p: CatchPolicy, contest: Option<string>, task: Option<string>): (r: Result<(string, string), AppError>)
    ensures cell.Unreadable? ==> r == Failure(ConfigAccessError)
    ensures cell.Malformed? ==> r == Failure(ReadFailure(p, ParseError))
    ensures cell.Holds? ==> r == ResolveTask(cell.value, contest, task)
  {
    match ReadOf(cell)
    case Failure(e) => Failure(ReadFailure(p, e))
    case Success(config) => ResolveTask(config, contest, task)
  }

  /** The two layers resolve alike except on an unparsable config, which
      the service layer lets through as a ParseError. */
  lemma TaskInfoLayers(cell: Stored<TaskConfig>, contest: Option<string>, task: Option<string>)
    ensures !cell.Malformed? ==> TaskInfo(cell, ReadAndParse, contest, task) == TaskInfo(cell, ReadOnly, contest, task)
    ensures cell.Malformed? ==>
              TaskInfo(cell, ReadAndParse, contest, task) == Failure(ConfigAccessError)
              && TaskInfo(cell, ReadOnly, contest, task) == Failure(Uncaught(ParseError))
  {
  }

  /** The interactor's translation of a failed fetch. */
  function InteractorFetchFailure(e: RepoError): (f: AppError)
    ensures f == AtcoderAccessError <==> e == ConnectionError || e == ParseError
    ensures f != AtcoderAccessError ==> f == Uncaught(e)
  {
    if e == ConnectionError || e == ParseError then AtcoderAccessError else Uncaught(e)
  }

  /** The service's translation of a failed fetch. */
  function ServiceFetchFailure(e: RepoError): (f: AppError)
    ensures f == AtcoderAccessError <==> e == ReadError
    ensures f != AtcoderAccessError ==> f == Uncaught(e)
  {
    if e == ReadError then AtcoderAccessError else Uncaught(e)
  }

  class FetchTaskInteractor {
    const taskConfigRepo: Store<TaskConfig>
    const testCaseRepo: Store<seq<TestCase>>
    const sessionRepo: Store<Session>
    const site: AtCoderSite

    constructor (taskConfigRepo: Store<TaskConfig>, testCaseRepo: Store<seq<TestCase>>, sessionRepo: Store<Session>, site: AtCoderSite)
      ensures this.taskConfigRepo == taskConfigRepo && this.testCaseRepo == testCaseRepo
      ensures this.sessionRepo == sessionRepo && this.site == site
    {
      this.taskConfigRepo := taskConfigRepo;
      this.testCaseRepo := testCaseRepo;
      this.sessionRepo := sessionRepo;
      this.site := site;
    }

    /** `_get_task_info`. */
    method GetTaskInfo(contest: Option<string>, task: Option<string>) returns (r: Result<(string, string), AppError>)
      ensures r == TaskInfo(taskConfigRepo.cell, ReadAndParse, contest, task)
    {
      var read := taskConfigRepo.Read();
      if read.Failure? {
        return Failure(ReadFailure(ReadAndParse, read.error));
      }
      r := ResolveTask(read.value, contest, task);
    }

    /** `fetch_task`: resolve, read the session (a ReadError is a
        ConfigAccessError), fetch (a ConnectionError or ParseError is an
        AtcoderAccessError), write the fetched cases unchanged (a WriteError
        is a ConfigAccessError). Each failure stops everything after it. */
    method FetchTask(contest: Option<string>, task: Option<string>) returns (r: Outcome<AppError>)
      modifies site, testCaseRepo
      ensures testCaseRepo.writable == old(testCaseRepo.writable)
      ensures TaskInfo(taskConfigRepo.cell, ReadAndParse, contest, task).Failure? ==>
                r == Fail(TaskInfo(taskConfigRepo.cell, ReadAndParse, contest, task).error)
                && site.requests == old(site.requests) && unchanged(testCaseRepo)
      ensures TaskInfo(taskConfigRepo.cell, ReadAndParse, contest, task).Success? && !sessionRepo.cell.Holds? ==>
                r == Fail(ReadFailure(ReadOnly, ReadOf(sessionRepo.cell).error))
                && site.requests == old(site.requests) && unchanged(testCaseRepo)
      ensures TaskInfo(taskConfigRepo.cell, ReadAndParse, contest, task).Success? && sessionRepo.cell.Holds? ==>
                var (c, t) := TaskInfo(taskConfigRepo.cell, ReadAndParse, contest, task).value;
                var q := Request(Some(sessionRepo.cell.value), c, t);
                site.requests == old(site.requests) + [q]
                && (site.pages(q).Failure? ==>
                      r == Fail(InteractorFetchFailure(site.pages(q).error)) && unchanged(testCaseRepo))
                && (site.pages(q).Success? && old(testCaseRepo.writable) ==>
                      r == Pass && testCaseRepo.writes == old(testCaseRepo.writes) + [site.pages(q).value]
                      && testCaseRepo.cell == Holds(site.pages(q).value))
                && (site.pages(q).Success? && !old(testCaseRepo.writable) ==>
                      r == Fail(ConfigAccessError) && unchanged(testCaseRepo))
    {
      var info := GetTaskInfo(contest, task);
      if info.Failure? {
        return Fail(info.error);
      }
      var (c, t) := info.value;
      var session := sessionRepo.Read();
      if session.Failure? {
        return Fail(ReadFailure(ReadOnly, session.error));
      }
      var fetched := site.FetchTestCases(Request(Some(session.value), c, t));
      if fetched.Failure? {
        return Fail(InteractorFetchFailure(fetched.error));
      }
      var written := testCaseRepo.Write(fetched.value);
      r := WriteFailure(written);
    }
  }

  /** `fetch_task` of the service layer: only a ReadError of the config is
      translated, the fetch carries no session and only its ReadError
      becomes an AtcoderAccessError. */
  method ServiceFetchTask(
    contest: Option<string>, task: Option<string>,
    site: AtCoderSite, taskConfigRepo: Store<TaskConfig>, testCaseRepo: Store<seq<TestCase>>)
    returns (r: Outcome<AppError>)
    modifies site, testCaseRepo
    ensures testCaseRepo.writable == old(testCaseRepo.writable)
    ensures TaskInfo(taskConfigRepo.cell, ReadOnly, contest, task).Failure? ==>
              r == Fail(TaskInfo(taskConfigRepo.cell, ReadOnly, contest, task).error)
              && site.requests == old(site.requests) && unchanged(testCaseRepo)
    ensures TaskInfo(taskConfigRepo.cell, ReadOnly, contest, task).Success? ==>
              var (c, t) := TaskInfo(taskConfigRepo.cell, ReadOnly, contest, task).value;
              var q := Request(None, c, t);
              site.requests == old(site.requests) + [q]
              && (site.pages(q).Failure? ==>
                    r == Fail(ServiceFetchFailure(site.pages(q).error)) && unchanged(testCaseRepo))
              && (site.pages(q).Success? && old(testCaseRepo.writable) ==>
                    r == Pass && testCaseRepo.writes == old(testCaseRepo.writes) + [site.pages(q).value]
                    && testCaseRepo.cell == Holds(site.pages(q).value))
              && (site.pages(q).Success? && !old(testCaseRepo.writable) ==>
                    r == Fail(ConfigAccessError) && unchanged(testCaseRepo))
  {
    var read := taskConfigRepo.Read();
    if read.Failure? {
      return Fail(ReadFailure(ReadOnly, read.error));
    }
    var info := ResolveTask(read.value, contest, task);
    if info.Failure? {
      return Fail(info.error);
    }
    var (c, t) := info.value;
    var fetched := site.FetchTestCases(Request(None, c, t));
    if fetched.Failure? {
      return Fail(ServiceFetchFailure(fetched.error));
    }
    var written := testCaseRepo.Write(fetched.value);
    r := WriteFailure(written);
  }
}
