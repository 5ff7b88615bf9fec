/**
 * The older parse manager of the `util` package: its table maps the
 * configured platform NAME to the platform id, and it parses one problem
 * from a page.
 */
module UtilParsing {
  import opened Wrappers
  import opened Configuration
  import opened Problems
  import opened Parsing

  /** The platform ids that have a parser here (one more than in the
      `parsing` package: "bayan"). */
  const UTIL_PLATFORM_IDS: set<string> := {"atcoder", "bayan", "codechef", "codeforces", "csacademy", "facebook",
                                           "gcj", "hackerearth", "hackerrank", "kattis", "rcc", "timus", "usaco",
                                           "yandex"}

  /** The platforms whose contests can be parsed. */
  const ALL_CONTEST_PLATFORMS: set<string> := {"codechef", "codeforces", "gcj", "kattis", "rcc", "timus"}

  class PlatformTable {
    var platformNameToId: map<string, string>

    constructor ()
      ensures platformNameToId == map[]
    {
      platformNameToId := map[];
    }

    /** `configure`: the table is rebuilt from scratch; its keys are exactly
        the configured names of the platforms with a parser, and each maps
        to a platform configured with that name (when two platforms share a
        name, the one visited last wins). */
    method Configure(config: Config)
      modifies this`platformNameToId
      ensures forall name :: name in platformNameToId <==>
                exists id :: id in UTIL_PLATFORM_IDS && GetPlatform(config, id) == Some(name)
      ensures forall name :: name in platformNameToId ==>
                platformNameToId[name] in UTIL_PLATFORM_IDS && GetPlatform(config, platformNameToId[name]) == Some(name)
    {
      platformNameToId := map[];
      var remaining := UTIL_PLATFORM_IDS;
      while remaining != {}
        invariant remaining <= UTIL_PLATFORM_IDS
        invariant forall name :: name in platformNameToId <==>
                    exists id :: id in UTIL_PLATFORM_IDS && id !in remaining && GetPlatform(config, id) == Some(name)
        invariant forall name :: name in platformNameToId ==>
                    platformNameToId[name] in UTIL_PLATFORM_IDS && GetPlatform(config, platformNameToId[name]) == Some(name)
        decreases |remaining|
      {
        var id :| id in remaining;
        var platformName := GetPlatform(config, id);
        if platformName.Some? {
          platformNameToId := platformNameToId[platformName.value := id];
        }
        remaining := remaining - {id};
      }
    }

    /** `getPlatformId`: the id recorded for a name, null for an unknown
        name. */
    function GetPlatformId(platformName: string): (id: Option<string>)
      reads this
      ensures id.Some? <==> platformName in platformNameToId
      ensures id.Some? ==> id.value == platformNameToId[platformName]
    {
      Lookup(platformNameToId, platformName)
    }

    /** `getPlatformNames`: every name of the table once. */
    method GetPlatformNames() returns (platformNames: seq<string>)
      ensures forall name :: name in platformNames <==> name in platformNameToId
      ensures forall i, j :: 0 <= i < j < |platformNames| ==> platformNames[i] != platformNames[j]
    {
      platformNames := [];
      var remaining := platformNameToId.Keys;
      while remaining != {}
        invariant remaining <= platformNameToId.Keys
        invariant forall name :: name in platformNames <==> name in platformNameToId && name !in remaining
        invariant forall i, j :: 0 <= i < j < |platformNames| ==> platformNames[i] != platformNames[j]
        decreases |remaining|
      {
        var name :| name in remaining;
        platformNames := platformNames + [name];
        remaining := remaining - {name};
      }
    }

    /** `getContestPlatformNames`: the names of the table whose platform can
        parse contests, each once. */
    method GetContestPlatformNames() returns (platformNames: seq<string>)
      ensures forall name :: name in platformNames <==>
                name in platformNameToId && platformNameToId[name] in ALL_CONTEST_PLATFORMS
      ensures forall i, j :: 0 <= i < j < |platformNames| ==> platformNames[i] != platformNames[j]
    {
      platformNames := [];
      var remaining := platformNameToId.Keys;
      while remaining != {}
        invariant remaining <= platformNameToId.Keys
        invariant forall name :: name in platformNames <==>
                    name in platformNameToId && name !in remaining && platformNameToId[name] in ALL_CONTEST_PLATFORMS
        invariant forall i, j :: 0 <= i < j < |platformNames| ==> platformNames[i] != platformNames[j]
        decreases |remaining|
      {
        var name :| name in remaining;
        if platformNameToId[name] in ALL_CONTEST_PLATFORMS {
          platformNames := platformNames + [name];
        }
        remaining := remaining - {name};
      }
    }

    /** `parseProblem`: a page that could not be fetched (`page` is None)
        raises a malformed-URL error without message; an unknown name leaves
        no parser to call; a page without tasks raises a parser
        configuration error without message; otherwise the problem is built
        from the first task, with the platform NAME in the place of the
        platform id. `parseHtml(id, page)` is what platform `id`'s parser
        finds; `platformNames` is the table of the `parsing` package. */
    method ParseProblem(platformName: string, page: Option<string>, parseHtml: (string, string) -> seq<Task>,
                        config: Config, platformNames: map<string, string>) returns (r: Result<Problem, ParseError>)
      requires "problem directory" in config
      ensures page.None? ==> r == Err(MalformedUrl(None))
      ensures page.Some? && platformName !in platformNameToId ==> r == Err(NullPointer)
      ensures (page.Some? && platformName in platformNameToId &&
               parseHtml(platformNameToId[platformName], page.value) == []) ==> r == Err(ParserConfiguration(None))
      ensures r.Ok? <==> page.Some? && platformName in platformNameToId &&
                         parseHtml(platformNameToId[platformName], page.value) != []
      ensures r.Ok? ==>
                var task := parseHtml(platformNameToId[platformName], page.value)[0];
                fresh(r.value) && r.value.platformId == platformName &&
                r.value.problemId == ProblemIdOf(task.taskClass) && r.value.problemName == task.name &&
                r.value.contestName == task.contestName && |r.value.testCases| == |task.tests|
    {
      var platformId := GetPlatformId(platformName);
      if page.None? {
        return Err(MalformedUrl(None));
      }
      if platformId.None? {
        return Err(NullPointer);
      }
      var tasks := parseHtml(platformId.value, page.value);
      if tasks == [] {
        return Err(ParserConfiguration(None));
      }
      var problem := new Problem.FromTask(platformName, tasks[0], config, platformNames);
      r := Ok(problem);
    }
  }
}
