/** `AtCoderURLProvider` (atcoder_helper/infrastructure/utils.py): the site's
    page addresses built by string concatenation. */
module AtCoderUrls {
  import opened Wrappers

  const AtCoderUrl: string := "https://atcoder.jp"

  const LoginUrl: string := AtCoderUrl + "/login"

  const ContestsPrefix: string := AtCoderUrl + "/contests/"

  function ContestUrl(contest: string): (u: string)
    ensures ContestsPrefix <= u && u[|ContestsPrefix|..] == contest
  {
    ContestsPrefix + contest
  }

  /** A task page: the contest page, "/tasks/", then "<contest>_<task>". */
  function TaskUrl(contest: string, task: string): (u: string)
    ensures ContestUrl(contest) <= u
    ensures u[|ContestUrl(contest)|..] == "/tasks/" + contest + "_" + task
  {
    ContestUrl(contest) + "/tasks/" + contest + "_" + task
  }

  function SubmitUrl(contest: string): (u: string)
    ensures ContestUrl(contest) <= u && u[|ContestUrl(contest)|..] == "/submit"
  {
    ContestUrl(contest) + "/submit"
  }

  /** The contest named by a contest page address. */
  function ContestOf(u: string): (c: Option<string>)
    ensures c.Some? <==> ContestsPrefix <= u
  {
    if ContestsPrefix <= u then Some(u[|ContestsPrefix|..]) else None
  }

  lemma ContestOfContestUrl(contest: string)
    ensures ContestOf(ContestUrl(contest)) == Some(contest)
  {
  }

  /** Different contests have different pages. */
  lemma ContestUrlInjective(c1: string, c2: string)
    requires ContestUrl(c1) == ContestUrl(c2)
    ensures c1 == c2
  {
    ContestOfContestUrl(c1);
    ContestOfContestUrl(c2);
  }

  /** For one contest, different tasks have different pages. */
  lemma TaskUrlInjective(contest: string, t1: string, t2: string)
    requires TaskUrl(contest, t1) == TaskUrl(contest, t2)
    ensures t1 == t2
  {
    var k := |ContestUrl(contest) + "/tasks/" + contest + "_"|;
    assert t1 == TaskUrl(contest, t1)[k..];
    assert t2 == TaskUrl(contest, t2)[k..];
  }

  lemma LoginUrlValue()
    ensures LoginUrl == "https://atcoder.jp/login"
  {
  }
}
