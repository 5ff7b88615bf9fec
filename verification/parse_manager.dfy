/**
 * Choosing a platform for a URL and turning what a platform parser returns
 * into problems. The parsers themselves are not part of this model: the
 * tasks a parser finds on a page or in a contest are given as functions.
 */
module Parsing {
  import opened Wrappers
  import opened Strings
  import opened Configuration
  import opened Problems

  /** The exceptions the parse manager raises, with their messages; a
      `NullPointer` is the crash of calling a parser that is not there. */
  datatype ParseError =
    | MalformedUrl(message: Option<string>)
    | ParserConfiguration(message: Option<string>)
    | NullPointer

  /** The platform ids that have a parser. */
  const PLATFORM_IDS: set<string> := {"atcoder", "codechef", "codeforces", "csacademy", "facebook", "gcj",
                                      "hackerearth", "hackerrank", "kattis", "rcc", "timus", "usaco", "yandex"}

  /** The text whose presence in a URL identifies each platform. */
  const PLATFORM_URLS: map<string, string> := map[
    "atcoder" := "atcoder.jp",
    "codechef" := "codechef.com",
    "codeforces" := "codeforces.com",
    "csacademy" := "csacademy.com",
    "facebook" := "facebook.com/hackercup",
    "gcj" := "code.google.com/codejam",
    "hackerearth" := "hackerearth.com",
    "hackerrank" := "hackerrank.com",
    "kattis" := "open.kattis.com",
    "rcc" := "russiancodecup.ru",
    "timus" := "acm.timus.ru",
    "usaco" := "usaco.org",
    "yandex" := "contest.yandex.ru"]

  /** The URL prefix of a contest, for the platforms whose contests can be
      parsed. */
  const CONTEST_URLS: map<string, string> := map[
    "codechef" := "www.codechef.com/",
    "codeforces" := "codeforces.com/contest/",
    "gcj" := "code.google.com/codejam/contest/",
    "kattis" := "open.kattis.com/contests/",
    "rcc" := "russiancodecup.ru/championship/round/",
    "timus" := "acm.timus.ru/problemset.aspx?space="]

  const UNRECOGNIZED := MalformedUrl(Some("Unrecognized platform."))
  const AMBIGUOUS := MalformedUrl(Some("Ambiguous platform."))

  /** The message for a platform whose contests cannot be parsed. */
  function NotSupported(platformId: string): string
  {
    "Contest parsing is not supported for " + platformId
  }

  /** The message for a URL without the platform's contest URL. */
  function InvalidContestUrl(platformId: string): string
  {
    "Invalid contest url for " + platformId
  }

  /** The characters at which a contest id ends: `$ ? # / \`. */
  const CUT_CHARS: set<char> := {'$', '?', '#', '/', '\\'}

  /** The characters a regular-expression `.` does not match. */
  const LINE_TERMINATORS: set<char> := {'\n', '\r', '\U{0085}', '\U{2028}', '\U{2029}'}

  /** Every platform with a URL fragment, and every platform with a contest
      URL, has a parser. */
  lemma TablesAgree()
    ensures PLATFORM_URLS.Keys == PLATFORM_IDS
    ensures CONTEST_URLS.Keys <= PLATFORM_IDS
  {
  }

  /** The keys of `fragments` whose fragment occurs in `url`. */
  function Matching(url: string, fragments: map<string, string>): set<string>
  {
    set id | id in fragments && Contains(url, fragments[id])
  }

  /** The platforms whose URL fragment occurs in `url`. */
  function MatchingPlatforms(url: string): set<string>
  {
    Matching(url, PLATFORM_URLS)
  }

  /** The selection of `getPlatformByUrl` over any table of fragments. */
  method UniqueMatch(url: string, fragments: map<string, string>) returns (r: Result<string, ParseError>)
    ensures r.Ok? || r == Err(UNRECOGNIZED) || r == Err(AMBIGUOUS)
    ensures r.Ok? ==> Matching(url, fragments) == {r.value}
    ensures r == Err(UNRECOGNIZED) <==> Matching(url, fragments) == {}
    ensures r == Err(AMBIGUOUS) <==>
              exists a, b :: a in Matching(url, fragments) && b in Matching(url, fragments) && a != b
  {
    var platformIds: seq<string> := [];
    var remaining := fragments.Keys;
    while remaining != {}
      invariant remaining <= fragments.Keys
      invariant forall id :: id in platformIds <==> id in Matching(url, fragments) && id !in remaining
      invariant forall i, j :: 0 <= i < j < |platformIds| ==> platformIds[i] != platformIds[j]
      decreases |remaining|
    {
      var id :| id in remaining;
      if Contains(url, fragments[id]) {
        platformIds := platformIds + [id];
      }
      remaining := remaining - {id};
    }
    if platformIds == [] {
      r := Err(UNRECOGNIZED);
    } else if |platformIds| > 1 {
      assert platformIds[0] in Matching(url, fragments) && platformIds[1] in Matching(url, fragments);
      r := Err(AMBIGUOUS);
    } else {
      assert platformIds[0] in Matching(url, fragments);
      r := Ok(platformIds[0]);
    }
  }

  /** `getPlatformByUrl`: the one platform whose fragment occurs in the
      URL; no match and several matches are reported as different errors. */
  method GetPlatformByUrl(url: string) returns (r: Result<string, ParseError>)
    ensures r.Ok? || r == Err(UNRECOGNIZED) || r == Err(AMBIGUOUS)
    ensures r.Ok? ==> MatchingPlatforms(url) == {r.value}
    ensures r == Err(UNRECOGNIZED) <==> MatchingPlatforms(url) == {}
    ensures r == Err(AMBIGUOUS) <==> exists a, b :: a in MatchingPlatforms(url) && b in MatchingPlatforms(url) && a != b
  {
    r := UniqueMatch(url, PLATFORM_URLS);
  }

  /** The first position at or after `from` holding one of `chars`, or the
      length of `s` when there is none. */
  function FirstOf(s: string, chars: set<char>, from: nat): (i: nat)
    requires from <= |s|
    ensures from <= i <= |s|
    ensures forall j :: from <= j < i ==> s[j] !in chars
    ensures i < |s| ==> s[i] in chars
    decreases |s| - from
  {
    if from == |s| || s[from] in chars then from else FirstOf(s, chars, from + 1)
  }

  /** `replaceFirst("[\$\?#/\\].*", "")`: from the first cut character up to
      the next line terminator (or the end) the text is removed. */
  function ContestId(rest: string): string
  {
    var p := FirstOf(rest, CUT_CHARS, 0);
    if p == |rest| then rest
    else rest[..p] + rest[FirstOf(rest, LINE_TERMINATORS, p + 1)..]
  }

  /** Text without a cut character is the contest id as it stands. */
  lemma ContestIdWithoutCut(rest: string)
    requires forall j :: 0 <= j < |rest| ==> rest[j] !in CUT_CHARS
    ensures ContestId(rest) == rest
  {
  }

  /** On a single line, the contest id is the longest prefix free of cut
      characters: everything from the first cut character on is dropped. */
  lemma ContestIdSingleLine(rest: string)
    requires forall j :: 0 <= j < |rest| ==> rest[j] !in LINE_TERMINATORS
    ensures var id := ContestId(rest);
            |id| <= |rest| && id == rest[..|id|] &&
            (forall j :: 0 <= j < |id| ==> id[j] !in CUT_CHARS) &&
            (|id| < |rest| ==> rest[|id|] in CUT_CHARS)
  {
    var p := FirstOf(rest, CUT_CHARS, 0);
    if p < |rest| {
      assert FirstOf(rest, LINE_TERMINATORS, p + 1) == |rest|;
      assert ContestId(rest) == rest[..p];
    }
  }

  /** A contest id taken from a single line has nothing left to cut. */
  lemma ContestIdIdempotent(rest: string)
    requires forall j :: 0 <= j < |rest| ==> rest[j] !in LINE_TERMINATORS
    ensures ContestId(ContestId(rest)) == ContestId(rest)
  {
    ContestIdSingleLine(rest);
    ContestIdWithoutCut(ContestId(rest));
  }

  /** The problems built from `tasks`, in order, each for `platformId`. */
  predicate BuiltFrom(problems: seq<Problem>, platformId: string, tasks: seq<Task>)
    reads set p | p in problems
  {
    |problems| == |tasks| &&
    forall i :: 0 <= i < |problems| ==>
      problems[i].platformId == platformId &&
      problems[i].problemId == ProblemIdOf(tasks[i].taskClass) &&
      problems[i].problemName == tasks[i].name &&
      problems[i].contestName == tasks[i].contestName &&
      |problems[i].testCases| == |tasks[i].tests|
  }

  /** `new Problem(platformId, task)` for each task in turn. */
  method ProblemsFromTasks(platformId: string, tasks: seq<Task>, config: Config, platformNames: map<string, string>)
    returns (problems: seq<Problem>)
    requires "problem directory" in config
    ensures forall p :: p in problems ==> fresh(p)
    ensures BuiltFrom(problems, platformId, tasks)
  {
    problems := [];
    var i := 0;
    while i < |tasks|
      invariant 0 <= i <= |tasks|
      invariant forall p :: p in problems ==> fresh(p)
      invariant BuiltFrom(problems, platformId, tasks[..i])
    {
      var problem := new Problem.FromTask(platformId, tasks[i], config, platformNames);
      problems := problems + [problem];
      i := i + 1;
    }
    assert tasks[..i] == tasks;
  }

  /** The URL checks of `parseContestByUrl`, for any table of platform
      fragments and of contest URLs: the one platform the URL names, and
      the contest id `ContestOfPlatform` finds for it. */
  method ContestOfUrl(url: string, fragments: map<string, string>, contestUrls: map<string, string>)
    returns (r: Result<(string, string), ParseError>)
    ensures Matching(url, fragments) == {} ==> r == Err(UNRECOGNIZED)
    ensures (exists a, b :: a in Matching(url, fragments) && b in Matching(url, fragments) && a != b) ==>
              r == Err(AMBIGUOUS)
    ensures forall id :: Matching(url, fragments) == {id} ==>
              var found := ContestOfPlatform(url, id, contestUrls);
              r == if found.Err? then Err(found.error) else Ok((id, found.value))
    ensures r.Ok? ==> Matching(url, fragments) == {r.value.0}
  {
    var platform := UniqueMatch(url, fragments);
    if platform.Err? {
      return Err(platform.error);
    }
    forall id | Matching(url, fragments) == {id}
      ensures id == platform.value
    {
      assert id in Matching(url, fragments);
    }
    var contestId := ContestOfPlatform(url, platform.value, contestUrls);
    if contestId.Err? {
      return Err(contestId.error);
    }
    r := Ok((platform.value, contestId.value));
  }

  /** The checks of `parseContestByUrl` once the platform is known: the
      platform needs a contest URL in `contestUrls`, which must occur in
      the URL, and the contest id is cut from the text after its first
      occurrence. */
  function ContestOfPlatform(url: string, platformId: string, contestUrls: map<string, string>)
    : Result<string, ParseError>
  {
    if platformId !in contestUrls then Err(MalformedUrl(Some(NotSupported(platformId))))
    else
      var index := IndexOf(url, contestUrls[platformId]);
      if index.None? then Err(MalformedUrl(Some(InvalidContestUrl(platformId))))
      else Ok(ContestId(url[index.value + |contestUrls[platformId]|..]))
  }

  /** A platform without a contest URL is not supported; a URL in which
      the platform's contest URL does not occur is invalid; otherwise the
      contest id is cut from the text after the first occurrence. */
  lemma ContestOfPlatformCases(url: string, platformId: string, contestUrls: map<string, string>)
    ensures platformId !in contestUrls ==>
              ContestOfPlatform(url, platformId, contestUrls) == Err(MalformedUrl(Some(NotSupported(platformId))))
    ensures platformId in contestUrls && !Contains(url, contestUrls[platformId]) ==>
              ContestOfPlatform(url, platformId, contestUrls) == Err(MalformedUrl(Some(InvalidContestUrl(platformId))))
    ensures ContestOfPlatform(url, platformId, contestUrls).Ok? <==>
              platformId in contestUrls && Contains(url, contestUrls[platformId])
    ensures ContestOfPlatform(url, platformId, contestUrls).Ok? ==>
              exists i: nat :: OccursAt(url, contestUrls[platformId], i) &&
                          (forall j: nat :: j < i ==> !OccursAt(url, contestUrls[platformId], j)) &&
                          ContestOfPlatform(url, platformId, contestUrls).value == ContestId(url[i + |contestUrls[platformId]|..])
  {
    if platformId in contestUrls && Contains(url, contestUrls[platformId]) {
      var i := IndexOf(url, contestUrls[platformId]).value;
      assert OccursAt(url, contestUrls[platformId], i);
    }
  }

  /** The parse manager's mutable table: the configured name of every
      platform that has one. */
  class ParseManager {
    var platformIdToName: map<string, string>

    constructor ()
      ensures platformIdToName == map[]
    {
      platformIdToName := map[];
    }

    /** `configure`: the table is rebuilt from scratch and holds exactly
        the platforms with a parser and a configured name. */
    method Configure(config: Config)
      modifies this`platformIdToName
      ensures forall id :: id in platformIdToName <==> id in PLATFORM_IDS && GetPlatform(config, id).Some?
      ensures forall id :: id in platformIdToName ==> GetPlatform(config, id) == Some(platformIdToName[id])
    {
      platformIdToName := map[];
      var remaining := PLATFORM_IDS;
      while remaining != {}
        invariant remaining <= PLATFORM_IDS
        invariant forall id :: id in platformIdToName <==>
                    id in PLATFORM_IDS && id !in remaining && GetPlatform(config, id).Some?
        invariant forall id :: id in platformIdToName ==> GetPlatform(config, id) == Some(platformIdToName[id])
        decreases |remaining|
      {
        var id :| id in remaining;
        var platformName := GetPlatform(config, id);
        if platformName.Some? {
          platformIdToName := platformIdToName[id := platformName.value];
        }
        remaining := remaining - {id};
      }
    }

    /** `getPlatformName`: null for a platform that is not configured. */
    function GetPlatformName(platformId: string): (name: Option<string>)
      reads this
      ensures name.Some? <==> platformId in platformIdToName
      ensures name.Some? ==> name.value == platformIdToName[platformId]
    {
      Lookup(platformIdToName, platformId)
    }

    /** `getPlatformIds`: every configured platform once, in the table's
        iteration order. */
    method GetPlatformIds() returns (platformIds: seq<string>)
      ensures forall id :: id in platformIds <==> id in platformIdToName
      ensures forall i, j :: 0 <= i < j < |platformIds| ==> platformIds[i] != platformIds[j]
    {
      platformIds := [];
      var remaining := platformIdToName.Keys;
      while remaining != {}
        invariant remaining <= platformIdToName.Keys
        invariant forall id :: id in platformIds <==> id in platformIdToName && id !in remaining
        invariant forall i, j :: 0 <= i < j < |platformIds| ==> platformIds[i] != platformIds[j]
        decreases |remaining|
      {
        var id :| id in remaining;
        platformIds := platformIds + [id];
        remaining := remaining - {id};
      }
    }

    /** `parseProblemsFromHtml`: an unconfigured platform and a page without
        tasks are refused; otherwise one problem per task, in order.
        `parseHtml(id, page)` is what platform `id`'s parser finds. */
    method ParseProblemsFromHtml(platformId: string, page: string, parseHtml: (string, string) -> seq<Task>,
                                 config: Config) returns (r: Result<seq<Problem>, ParseError>)
      requires "problem directory" in config
      ensures platformId !in platformIdToName ==> r == Err(ParserConfiguration(Some("Unsupported platform.")))
      ensures platformId in platformIdToName && parseHtml(platformId, page) == [] ==>
                r == Err(ParserConfiguration(Some("Parsing failed.")))
      ensures r.Ok? <==> platformId in platformIdToName && parseHtml(platformId, page) != []
      ensures r.Ok? ==> (forall p :: p in r.value ==> fresh(p)) && BuiltFrom(r.value, platformId, parseHtml(platformId, page))
    {
      if platformId !in platformIdToName {
        return Err(ParserConfiguration(Some("Unsupported platform.")));
      }
      var tasks := parseHtml(platformId, page);
      if tasks == [] {
        return Err(ParserConfiguration(Some("Parsing failed.")));
      }
      var problems := ProblemsFromTasks(platformId, tasks, config, platformIdToName);
      r := Ok(problems);
    }

    /** `parseProblemByUrl`: the platform is chosen by the URL, a page that
        could not be fetched (`page` is None) is refused, and the page is
        parsed as above. */
    method ParseProblemByUrl(url: string, page: Option<string>, parseHtml: (string, string) -> seq<Task>,
                             config: Config) returns (r: Result<seq<Problem>, ParseError>)
      requires "problem directory" in config
      ensures MatchingPlatforms(url) == {} ==> r == Err(UNRECOGNIZED)
      ensures (exists a, b :: a in MatchingPlatforms(url) && b in MatchingPlatforms(url) && a != b) ==>
                r == Err(AMBIGUOUS)
      ensures forall id :: MatchingPlatforms(url) == {id} && page.None? ==>
                r == Err(MalformedUrl(Some("Unable to get web page content.")))
      ensures forall id :: MatchingPlatforms(url) == {id} && page.Some? ==>
                (id !in platformIdToName ==> r == Err(ParserConfiguration(Some("Unsupported platform.")))) &&
                (id in platformIdToName && parseHtml(id, page.value) == [] ==>
                   r == Err(ParserConfiguration(Some("Parsing failed.")))) &&
                (r.Ok? <==> id in platformIdToName && parseHtml(id, page.value) != [])
      ensures r.Ok? ==> page.Some? && (forall p :: p in r.value ==> fresh(p)) &&
                        exists id :: MatchingPlatforms(url) == {id} && id in platformIdToName &&
                                     BuiltFrom(r.value, id, parseHtml(id, page.value))
    {
      var platformId := GetPlatformByUrl(url);
      if platformId.Err? {
        return Err(platformId.error);
      }
      if page.None? {
        return Err(MalformedUrl(Some("Unable to get web page content.")));
      }
      r := ParseProblemsFromHtml(platformId.value, page.value, parseHtml, config);
    }

    /** `parseContestByUrl`: the platform is chosen by the URL and must have
        a contest URL that occurs in the URL; the contest id is the text
        after its first occurrence, cut as `ContestId` says, and every task
        the contest parser delivers becomes a problem. The table of
        configured platforms is not consulted. */
    method ParseContestByUrl(url: string, parseContest: (string, string) -> seq<Task>, config: Config)
      returns (r: Result<seq<Problem>, ParseError>)
      requires "problem directory" in config
      ensures MatchingPlatforms(url) == {} ==> r == Err(UNRECOGNIZED)
      ensures (exists a, b :: a in MatchingPlatforms(url) && b in MatchingPlatforms(url) && a != b) ==>
                r == Err(AMBIGUOUS)
      ensures forall id :: MatchingPlatforms(url) == {id} && ContestOfPlatform(url, id, CONTEST_URLS).Err? ==>
                r == Err(ContestOfPlatform(url, id, CONTEST_URLS).error)
      ensures r.Ok? <==> exists id :: MatchingPlatforms(url) == {id} && ContestOfPlatform(url, id, CONTEST_URLS).Ok?
      ensures r.Ok? ==>
                exists id :: MatchingPlatforms(url) == {id} && ContestOfPlatform(url, id, CONTEST_URLS).Ok? &&
                             (forall p :: p in r.value ==> fresh(p)) &&
                             BuiltFrom(r.value, id, parseContest(id, ContestOfPlatform(url, id, CONTEST_URLS).value))
    {
      var target := ContestOfUrl(url, PLATFORM_URLS, CONTEST_URLS);
      if target.Err? {
        return Err(target.error);
      }
      var platformId, contestId := target.value.0, target.value.1;
      var problems := ProblemsFromTasks(platformId, parseContest(platformId, contestId), config, platformIdToName);
      r := Ok(problems);
      assert ContestOfPlatform(url, platformId, CONTEST_URLS) == Ok(contestId);
    }
  }
}
