/**
 * A problem: its metadata, the directory it lives in, and the ordered list of
 * its test cases together with the set of their names and the counter that
 * numbers manually added tests.
 */
module Problems {
  import opened Wrappers
  import opened Strings
  import opened Configuration
  import opened TestCases

  // ---------------------------------------------------------------------------
  // The task description delivered by the platform parsers
  // ---------------------------------------------------------------------------

  datatype TestType = Single | MultiNumber | MultiEof

  /** How a task reads its input or writes its output; `localRegexp` stands
      for the LOCAL_REGEXP stream type. */
  datatype StreamConfiguration = StreamConfiguration(localRegexp: bool, fileName: Option<string>)

  datatype TaskTest = TaskTest(input: string, output: string)

  datatype Task = Task(
    taskClass: string,
    name: Option<string>,
    contestName: Option<string>,
    input: StreamConfiguration,
    output: StreamConfiguration,
    testType: TestType,
    tests: seq<TaskTest>)

  /** The error an operation on the disk raises. */
  datatype IoError =
    | NoSuchFile(path: string)
    | FileAlreadyExists(path: string)
    | AccessDenied(path: string)
    | Failure(message: string)

  /** The values `Problem.configure` reads once from the configuration. */
  datatype ProblemSettings = ProblemSettings(
    sampleTestName: string,
    manualTestName: string,
    defaultCheckerParams: Option<string>)

  function ProblemSettingsOf(config: Config): ProblemSettings
  {
    ProblemSettings(
      Text(Get(config, "test sample")),
      Text(Get(config, "test manual")),
      Get(config, "default checker preprocessor directives"))
  }

  // ---------------------------------------------------------------------------
  // Deriving a problem from a task
  // ---------------------------------------------------------------------------

  function HasTaskPrefix(taskClass: string): bool
  {
    |taskClass| >= 4 && taskClass[..4] == "Task"
  }

  /** The problem id: the task class name without one leading "Task". */
  function ProblemIdOf(taskClass: string): string
  {
    if HasTaskPrefix(taskClass) then taskClass[4..] else taskClass
  }

  /** Exactly one "Task" is removed, even when the rest starts with "Task"
      again; a name without the prefix is kept as it is. */
  lemma StripsOneTaskPrefix(id: string)
    ensures ProblemIdOf("Task" + id) == id
    ensures !HasTaskPrefix(id) ==> ProblemIdOf(id) == id
  {
    assert ("Task" + id)[..4] == "Task";
    assert ("Task" + id)[4..] == id;
  }

  function OrEmpty(s: Option<string>): string
  {
    if s.Some? then s.value else ""
  }

  /** The input file name of a problem built from `task`: the name of the
      task's input stream unless that stream is LOCAL_REGEXP, "" for null. */
  function TaskInputFile(task: Task): string
  {
    if !task.input.localRegexp then OrEmpty(task.input.fileName) else ""
  }

  /** The output file name as the constructor computes it: from the task's
      INPUT stream, like the input file name. */
  function TaskOutputFileAsWritten(task: Task): string
  {
    if !task.input.localRegexp then OrEmpty(task.input.fileName) else ""
  }

  /** The output file name taken from the task's output stream, under the
      same LOCAL_REGEXP condition. */
  function TaskOutputFile(task: Task): string
  {
    if !task.input.localRegexp then OrEmpty(task.output.fileName) else ""
  }

  /** As written, the output file of every problem built from a task is its
      input file; a file-based task reading "a.in" and writing "a.out" gets
      "a.in" as its output file. */
  lemma OutputFileAsWrittenIsInputFile(task: Task)
    ensures TaskOutputFileAsWritten(task) == TaskInputFile(task)
    ensures var t := Task("TaskA", Some("A"), Some("Round"), StreamConfiguration(false, Some("a.in")),
                          StreamConfiguration(false, Some("a.out")), Single, []);
            TaskOutputFileAsWritten(t) == "a.in" != t.output.fileName.value
  {
  }

  /** With the output stream used, the output file is the task's output file
      name whenever the input is not LOCAL_REGEXP and a name is given. */
  lemma OutputFileFollowsOutputStream(task: Task)
    ensures !task.input.localRegexp && task.output.fileName.Some? ==>
              TaskOutputFile(task) == task.output.fileName.value
    ensures task.input.localRegexp ==> TaskOutputFile(task) == "" && TaskInputFile(task) == ""
  {
  }

  /** The name of the i-th sample test (counting from 1). */
  function SampleName(settings: ProblemSettings, i: nat): string
  {
    settings.sampleTestName + NatToString(i)
  }

  // ---------------------------------------------------------------------------
  // The problem directory template
  // ---------------------------------------------------------------------------

  /** The value of one `%key%` of the problem directory template. */
  function DirectoryValue(key: string, platformId: string, platformName: Option<string>,
                          problemId: string, problemName: Option<string>, config: Config): string
  {
    if key == "platform_id" then platformId
    else if key == "platform_name" then Text(platformName)
    else if key == "problem_id" then problemId
    else if key == "problem_name" then Text(problemName)
    else Text(Get(config, key))
  }

  /** The directory: the template split at '%', every odd token replaced by
      its value, joined without separators. */
  function DirectoryFor(template: string, platformId: string, platformName: Option<string>,
                        problemId: string, problemName: Option<string>, config: Config): string
  {
    SubstituteOdd(template, '%', k => DirectoryValue(k, platformId, platformName, problemId, problemName, config))
  }

  /** A template with one `%problem_id%` between two plain parts yields the
      problem id between those parts. */
  lemma DirectoryOfOneKey(before: string, after: string, platformId: string, platformName: Option<string>,
                          problemId: string, problemName: Option<string>, config: Config)
    requires '%' !in before && '%' !in after
    ensures DirectoryFor(before + "%problem_id%" + after, platformId, platformName, problemId, problemName, config)
            == before + problemId + after
  {
    var key := "problem_id";
    assert "%problem_id%" == ['%'] + key + ['%'];
    assert before + "%problem_id%" + after == before + ['%'] + key + ['%'] + after;
    assert DirectoryValue(key, platformId, platformName, problemId, problemName, config) == problemId;
    SubstituteOneKey(before, '%', key, after,
                     k => DirectoryValue(k, platformId, platformName, problemId, problemName, config));
  }

  function Lookup(m: map<string, string>, key: string): Option<string>
  {
    if key in m then Some(m[key]) else None
  }

  // ---------------------------------------------------------------------------
  // Test lists and the list file
  // ---------------------------------------------------------------------------

  /** The names of the tests in a list. */
  function NamesOf(tests: seq<TestCase>): set<string>
  {
    set t | t in tests :: t.name
  }

  /** No two positions of the list hold tests of the same name. */
  predicate DistinctNames(tests: seq<TestCase>)
  {
    forall i, j :: 0 <= i < j < |tests| ==> tests[i].name != tests[j].name
  }

  /** The list file line of one test: its name, a space, its results joined
      with single spaces. */
  function ListLine(t: TestCase): string
    reads t
  {
    t.name + " " + t.GetExecutionResults(" ")
  }

  /** The lines of the test list file, in list order. */
  function ListLines(tests: seq<TestCase>): seq<string>
    reads tests
  {
    if tests == [] then [] else [ListLine(tests[0])] + ListLines(tests[1..])
  }

  /** One line per test, the k-th line belonging to the k-th test. */
  lemma {:induction false} ListLinesAt(tests: seq<TestCase>)
    ensures |ListLines(tests)| == |tests|
    ensures forall k :: 0 <= k < |tests| ==>
              ListLines(tests)[k] == tests[k].name + " " + tests[k].GetExecutionResults(" ")
  {
    if tests != [] {
      ListLinesAt(tests[1..]);
      assert forall k :: 1 <= k < |tests| ==> ListLines(tests)[k] == ListLines(tests[1..])[k - 1];
    }
  }

  /** The content of the test list file. */
  function ListFileContent(tests: seq<TestCase>): string
    reads tests
  {
    Unlines(ListLines(tests))
  }

  /** One fresh sample test per task test, in order, named
      `sampleTestName + 1 .. n`, with the task test's input and answer. */
  method SampleTests(settings: ProblemSettings, tests: seq<TaskTest>) returns (cases: seq<TestCase>)
    ensures |cases| == |tests| && DistinctNames(cases)
    ensures forall i :: 0 <= i < |cases| ==>
              fresh(cases[i]) &&
              cases[i].name == SampleName(settings, i + 1) &&
              cases[i].input == tests[i].input &&
              cases[i].expectedOutput == tests[i].output &&
              cases[i].programOutput == "" &&
              cases[i].executionResults == [UNKNOWN_KEY]
  {
    cases := [];
    var i := 0;
    while i < |tests|
      invariant 0 <= i <= |tests| && |cases| == i
      invariant forall k :: 0 <= k < i ==>
                  fresh(cases[k]) &&
                  cases[k].name == SampleName(settings, k + 1) &&
                  cases[k].input == tests[k].input &&
                  cases[k].expectedOutput == tests[k].output &&
                  cases[k].programOutput == "" &&
                  cases[k].executionResults == [UNKNOWN_KEY]
    {
      var t := new TestCase.WithData(SampleName(settings, i + 1), tests[i].input, tests[i].output);
      cases := cases + [t];
      i := i + 1;
    }
    forall a, b | 0 <= a < b < |cases|
      ensures cases[a].name != cases[b].name
    {
      NumberedNamesDistinct(settings.sampleTestName, a + 1, b + 1);
    }
  }

  class Problem {
    const settings: ProblemSettings
    var problemId: string
    var problemName: Option<string>
    var platformId: string
    var contestName: Option<string>
    var inputFile: string
    var outputFile: string
    var testType: TestType
    var testCases: seq<TestCase>
    var testCaseNames: set<string>
    var manualTestIndex: nat
    var interactive: bool
    var customChecker: bool
    var checkerParams: Option<string>
    var directory: string

    /** The name set is exactly the set of names in the list, and no name
        occurs twice in the list. */
    ghost predicate NamesConsistent()
      reads this
    {
      testCaseNames == NamesOf(testCases) && DistinctNames(testCases)
    }

    /** `Problem(problemId, problemName, platformId, contestName)`: no tests,
        no file names, single test type. */
    constructor (problemId: string, problemName: Option<string>, platformId: string, contestName: Option<string>,
                 config: Config, platformNames: map<string, string>)
      requires "problem directory" in config
      ensures settings == ProblemSettingsOf(config)
      ensures this.problemId == problemId && this.problemName == problemName
      ensures this.platformId == platformId && this.contestName == contestName
      ensures inputFile == "" && outputFile == "" && testType == Single
      ensures testCases == [] && testCaseNames == {} && manualTestIndex == 1
      ensures !interactive && !customChecker && checkerParams == settings.defaultCheckerParams
      ensures directory == DirectoryFor(config["problem directory"], platformId, Lookup(platformNames, platformId),
                                        problemId, problemName, config)
      ensures NamesConsistent()
    {
      settings := ProblemSettingsOf(config);
      this.problemId, this.problemName := problemId, problemName;
      this.platformId, this.contestName := platformId, contestName;
      inputFile, outputFile, testType := "", "", Single;
      testCases, testCaseNames, manualTestIndex := [], {}, 1;
      interactive, customChecker := false, false;
      checkerParams := ProblemSettingsOf(config).defaultCheckerParams;
      directory := "";
      new;
      SetDirectory(config, platformNames);
    }

    /** `Problem(platformId, task)`: the id without its "Task" prefix, the
        task's names, and one sample test per task test, named
        `sampleTestName + 1 .. n` in task order and all registered. */
    constructor FromTask(platformId: string, task: Task, config: Config, platformNames: map<string, string>)
      requires "problem directory" in config
      ensures settings == ProblemSettingsOf(config)
      ensures problemId == ProblemIdOf(task.taskClass) && problemName == task.name
      ensures this.platformId == platformId && contestName == task.contestName
      ensures inputFile == TaskInputFile(task) && outputFile == TaskOutputFile(task)
      ensures testType == task.testType
      ensures |testCases| == |task.tests|
      ensures forall i :: 0 <= i < |testCases| ==>
                fresh(testCases[i]) &&
                testCases[i].name == SampleName(settings, i + 1) &&
                testCases[i].input == task.tests[i].input &&
                testCases[i].expectedOutput == task.tests[i].output &&
                testCases[i].programOutput == "" &&
                testCases[i].executionResults == [UNKNOWN_KEY]
      ensures NamesConsistent() && manualTestIndex == 1
      ensures !interactive && !customChecker && checkerParams == settings.defaultCheckerParams
      ensures directory == DirectoryFor(config["problem directory"], platformId, Lookup(platformNames, platformId),
                                        problemId, problemName, config)
    {
      settings := ProblemSettingsOf(config);
      problemId := ProblemIdOf(task.taskClass);
      problemName := task.name;
      this.platformId := platformId;
      contestName := task.contestName;
      inputFile := TaskInputFile(task);
      outputFile := TaskOutputFile(task);
      testType := task.testType;
      testCaseNames, manualTestIndex := {}, 1;
      interactive, customChecker := false, false;
      checkerParams := ProblemSettingsOf(config).defaultCheckerParams;
      directory := "";
      testCases := [];
      new;
      testCases := SampleTests(settings, task.tests);
      testCaseNames := NamesOf(testCases);
      SetDirectory(config, platformNames);
    }

    /** `setDirectory`: the configured "problem directory" template with its
        `%key%` tokens replaced by this problem's values. */
    method SetDirectory(config: Config, platformNames: map<string, string>)
      requires "problem directory" in config
      modifies this`directory
      ensures directory == DirectoryFor(config["problem directory"], platformId, Lookup(platformNames, platformId),
                                        problemId, problemName, config)
    {
      var platformName := Lookup(platformNames, platformId);
      var pid, id, name := platformId, problemId, problemName;
      var tokens := Split(config["problem directory"], '%');
      var replaced := ReplaceOddTokens(tokens, k => DirectoryValue(k, pid, platformName, id, name, config));
      directory := Join("", replaced);
    }

    /** The contest name (Java renders a null one as "null"), a space, and
        the problem name when it is neither null nor empty, the problem id
        otherwise. */
    function GetFullName(): (r: string)
      reads this
      ensures problemName.Some? && problemName.value != "" ==> r == Text(contestName) + " " + problemName.value
      ensures problemName.None? || problemName.value == "" ==> r == Text(contestName) + " " + problemId
      ensures contestName.None? ==> r[..5] == "null "
    {
      var name := if problemName.Some? && problemName.value != "" then problemName.value else problemId;
      Text(contestName) + " " + name
    }

    /** The first name `manualTestName + k` with k at least the counter that
        is not taken; the counter moves up to k and never decreases. */
    method GetNextTestName() returns (name: string)
      modifies this`manualTestIndex
      ensures old(manualTestIndex) <= manualTestIndex
      ensures name == settings.manualTestName + NatToString(manualTestIndex)
      ensures name !in testCaseNames
      ensures forall j :: old(manualTestIndex) <= j < manualTestIndex ==>
                settings.manualTestName + NatToString(j) in testCaseNames
    {
      manualTestIndex := FirstFreeIndex(testCaseNames, settings.manualTestName, manualTestIndex);
      name := settings.manualTestName + NatToString(manualTestIndex);
    }

    /** Appends the test and registers its name. */
    method AddTestCase(testCase: TestCase)
      modifies this`testCases, this`testCaseNames
      ensures testCases == old(testCases) + [testCase]
      ensures testCaseNames == old(testCaseNames) + {testCase.name}
      ensures old(NamesConsistent()) && testCase.name !in old(testCaseNames) ==> NamesConsistent()
    {
      testCases := testCases + [testCase];
      testCaseNames := testCaseNames + {testCase.name};
    }

    /** `Collections.swap`: positions `index1` and `index2` exchange their
        tests; the list length and the name set stay as they are. */
    method SwapTestCases(index1: nat, index2: nat)
      requires index1 < |testCases| && index2 < |testCases|
      modifies this`testCases
      ensures testCases == old(testCases)[index1 := old(testCases)[index2]][index2 := old(testCases)[index1]]
      ensures |testCases| == |old(testCases)| && NamesOf(testCases) == NamesOf(old(testCases))
      ensures old(NamesConsistent()) ==> NamesConsistent()
    {
      testCases := testCases[index1 := testCases[index2]][index2 := testCases[index1]];
      assert NamesOf(testCases) == NamesOf(old(testCases)) by {
        forall t | t in old(testCases) ensures t in testCases {
          var k :| 0 <= k < |old(testCases)| && old(testCases)[k] == t;
          if k == index1 { assert testCases[index2] == t; }
          else if k == index2 { assert testCases[index1] == t; }
          else { assert testCases[k] == t; }
        }
      }
      if old(NamesConsistent()) {
        forall a, b | 0 <= a < b < |testCases| ensures testCases[a].name != testCases[b].name {
          var a' := if a == index1 then index2 else if a == index2 then index1 else a;
          var b' := if b == index1 then index2 else if b == index2 then index1 else b;
          assert testCases[a] == old(testCases)[a'] && testCases[b] == old(testCases)[b'];
          assert a' != b';
        }
      }
    }

    /** Deletes the test's files (an operation of the test case that is not
        part of this model; its outcome is `diskOutcome`) and, only when that
        succeeded, drops the test and its name. */
    method DeleteTestCase(index: nat, diskOutcome: Outcome<IoError>) returns (r: Outcome<IoError>)
      requires index < |testCases|
      modifies this`testCases, this`testCaseNames
      ensures r == diskOutcome
      ensures r.Fail? ==> testCases == old(testCases) && testCaseNames == old(testCaseNames)
      ensures r.Pass? ==> testCases == old(testCases)[..index] + old(testCases)[index + 1..]
      ensures r.Pass? ==> testCaseNames == old(testCaseNames) - {old(testCases)[index].name}
      ensures old(NamesConsistent()) ==> NamesConsistent()
    {
      r := diskOutcome;
      if r.Fail? {
        return;
      }
      var removed := testCases[index];
      testCaseNames := testCaseNames - {removed.name};
      testCases := testCases[..index] + testCases[index + 1..];
      if old(NamesConsistent()) {
        assert forall k :: 0 <= k < |testCases| ==>
          testCases[k] == old(testCases)[if k < index then k else k + 1];
        forall n | n in NamesOf(old(testCases)) - {removed.name} ensures n in NamesOf(testCases) {
          var k :| 0 <= k < |old(testCases)| && old(testCases)[k].name == n;
          assert k != index;
          assert testCases[if k < index then k else k - 1] == old(testCases)[k];
        }
      }
    }
  }
}
