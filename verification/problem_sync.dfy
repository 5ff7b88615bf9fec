/**
 * The link between one open problem and its directory on disk. The sync
 * shares the problem's test list (the same list object, so every change made
 * here is seen by the problem), keeps its own name set and manual-test
 * counter, and mirrors each change to the directory. The directory is the
 * map `files` from file name to file content.
 */
module Synchronization {
  import opened Wrappers
  import opened Strings
  import opened Configuration
  import opened TestCases
  import opened Problems

  /** The values `ProblemSync.configure` reads from the configuration. */
  datatype SyncSettings = SyncSettings(
    listFileName: string,
    inputExtension: string,
    expectedOutputExtension: string,
    programOutputExtension: string,
    manualTestName: string)

  function SyncSettingsOf(config: Config): SyncSettings
    requires "test list file" in config
  {
    SyncSettings(
      config["test list file"],
      "." + Text(GetExtension(config, "input")),
      "." + Text(GetExtension(config, "expected output")),
      "." + Text(GetExtension(config, "program output")),
      Text(Get(config, "test manual")))
  }

  /** The three extensions are different from one another, so the three
      files of one test never share a name. */
  predicate DistinctExtensions(s: SyncSettings)
  {
    s.inputExtension != s.expectedOutputExtension &&
    s.inputExtension != s.programOutputExtension &&
    s.expectedOutputExtension != s.programOutputExtension
  }

  // ---------------------------------------------------------------------------
  // `@key@` substitution
  // ---------------------------------------------------------------------------

  /** The value of one `@key@`: "problem_dir" is the sync's directory (null,
      rendered "null", while the sync is being constructed), every other key
      is asked of the problem. */
  function KeyValue(key: string, directory: Option<string>, getValue: (string, bool) -> string,
                    namesOnly: bool): string
  {
    if key == "problem_dir" then Text(directory) else getValue(key, namesOnly)
  }

  /** The text split at '@', every odd token replaced by its value, joined
      without separators. */
  function Substituted(input: string, directory: Option<string>, getValue: (string, bool) -> string,
                       namesOnly: bool): string
  {
    SubstituteOdd(input, '@', k => KeyValue(k, directory, getValue, namesOnly))
  }

  /** The token loop of `substituteKeys`, given the directory it sees. */
  method SubstituteTokens(input: string, directory: Option<string>, getValue: (string, bool) -> string,
                          namesOnly: bool) returns (r: string)
    ensures r == Substituted(input, directory, getValue, namesOnly)
    ensures '@' !in input ==> r == input
  {
    var tokens := Split(input, '@');
    var replaced := ReplaceOddTokens(tokens, k => KeyValue(k, directory, getValue, namesOnly));
    r := Join("", replaced);
    if '@' !in input {
      SubstituteWithoutMarker(input, '@', k => KeyValue(k, directory, getValue, namesOnly));
    }
  }

  /** "@problem_dir@" between two plain parts becomes the directory. */
  lemma ProblemDirKey(before: string, after: string, directory: string,
                      getValue: (string, bool) -> string, namesOnly: bool)
    requires '@' !in before && '@' !in after
    ensures Substituted(before + "@problem_dir@" + after, Some(directory), getValue, namesOnly)
            == before + directory + after
  {
    var key := "problem_dir";
    assert '@' !in key;
    assert "@problem_dir@" == ['@'] + key + ['@'];
    assert before + "@problem_dir@" + after == before + ['@'] + key + ['@'] + after;
    assert KeyValue(key, Some(directory), getValue, namesOnly) == directory;
    SubstituteOneKey(before, '@', key, after, k => KeyValue(k, Some(directory), getValue, namesOnly));
  }

  // ---------------------------------------------------------------------------
  // The directory as a map from file name to content
  // ---------------------------------------------------------------------------

  /** `createTestCaseFiles`: the input and the expected output are written,
      the program output file is created empty only when it is missing. */
  function WithTestFiles(files: map<string, string>, s: SyncSettings, t: TestCase): map<string, string>
    reads t
  {
    var written := files[t.name + s.inputExtension := t.input][t.name + s.expectedOutputExtension := t.expectedOutput];
    var programFile := t.name + s.programOutputExtension;
    if programFile in written then written else written[programFile := ""]
  }

  /** The files of every test of a list, created in list order. */
  function WithAllTestFiles(files: map<string, string>, s: SyncSettings, tests: seq<TestCase>): map<string, string>
    reads tests
  {
    if tests == [] then files
    else WithTestFiles(WithAllTestFiles(files, s, tests[..|tests| - 1]), s, tests[|tests| - 1])
  }

  /** Two different extensions give one test two different file names. */
  lemma DistinctFileNames(name: string, e1: string, e2: string)
    requires e1 != e2
    ensures name + e1 != name + e2
  {
    assert (name + e1)[|name|..] == e1 && (name + e2)[|name|..] == e2;
  }

  /** After creation each of the test's files has the content it should: the
      test's input, its expected output, and the program output that was
      already there (empty when there was none); other files keep theirs. */
  lemma TestFilesHoldContent(files: map<string, string>, s: SyncSettings, t: TestCase)
    requires DistinctExtensions(s)
    ensures var m := WithTestFiles(files, s, t);
            m.Keys == files.Keys + {t.name + s.inputExtension, t.name + s.expectedOutputExtension,
                                    t.name + s.programOutputExtension} &&
            m[t.name + s.inputExtension] == t.input &&
            m[t.name + s.expectedOutputExtension] == t.expectedOutput &&
            m[t.name + s.programOutputExtension] ==
              (if t.name + s.programOutputExtension in files then files[t.name + s.programOutputExtension] else "") &&
            (forall f :: (f in files && f != t.name + s.inputExtension && f != t.name + s.expectedOutputExtension &&
                          f != t.name + s.programOutputExtension) ==> m[f] == files[f])
  {
    DistinctFileNames(t.name, s.inputExtension, s.programOutputExtension);
    DistinctFileNames(t.name, s.expectedOutputExtension, s.programOutputExtension);
    DistinctFileNames(t.name, s.inputExtension, s.expectedOutputExtension);
  }

  /** After all tests' files are created, every test has its three files and
      no file that was there is gone. */
  lemma {:induction false} AllTestFilesPresent(files: map<string, string>, s: SyncSettings, tests: seq<TestCase>)
    ensures files.Keys <= WithAllTestFiles(files, s, tests).Keys
    ensures forall t :: t in tests ==>
              t.name + s.inputExtension in WithAllTestFiles(files, s, tests) &&
              t.name + s.expectedOutputExtension in WithAllTestFiles(files, s, tests) &&
              t.name + s.programOutputExtension in WithAllTestFiles(files, s, tests)
  {
    if tests != [] {
      var init := tests[..|tests| - 1];
      AllTestFilesPresent(files, s, init);
      assert forall t :: t in tests ==> t in init || t == tests[|tests| - 1];
    }
  }

  /** `Files.delete` applied to each path in turn: the directory after the
      attempts and the error of the first path that was missing. */
  function DeletePaths(files: map<string, string>, paths: seq<string>): (map<string, string>, Outcome<IoError>)
  {
    if paths == [] then (files, Pass)
    else if paths[0] !in files then (files, Fail(NoSuchFile(paths[0])))
    else DeletePaths(files - {paths[0]}, paths[1..])
  }

  /** Deleting succeeds exactly when the paths are all present and no path
      comes twice; success leaves the directory without those paths and
      with every other file as it was, and a failure names one of them. */
  lemma {:induction false} DeletePathsRemoves(files: map<string, string>, paths: seq<string>)
    ensures DeletePaths(files, paths).1.Pass? <==>
              (forall p :: p in paths ==> p in files) &&
              (forall i, j :: 0 <= i < j < |paths| ==> paths[i] != paths[j])
    ensures DeletePaths(files, paths).1.Pass? ==>
              DeletePaths(files, paths).0 == files - set p | p in paths
    ensures DeletePaths(files, paths).1.Fail? ==>
              DeletePaths(files, paths).1.error.NoSuchFile? &&
              DeletePaths(files, paths).1.error.path in paths
  {
    if paths != [] && paths[0] in files {
      var rest := files - {paths[0]};
      DeletePathsRemoves(rest, paths[1..]);
      assert forall p :: p in paths <==> p == paths[0] || p in paths[1..];
      if DeletePaths(files, paths).1.Pass? {
        assert rest - (set p | p in paths[1..]) == files - set p | p in paths;
        forall i, j | 0 <= i < j < |paths| ensures paths[i] != paths[j] {
          if i > 0 {
            assert paths[i] == paths[1..][i - 1] && paths[j] == paths[1..][j - 1];
          } else {
            assert paths[j] in paths[1..];
          }
        }
      }
    }
  }

  /** `Files.copy(from, to)`, with or without REPLACE_EXISTING: a missing
      source fails; copying a file onto itself does nothing; an existing
      target fails unless replacing is asked for. */
  function CopyFile(files: map<string, string>, from: string, to: string, replace: bool)
    : (map<string, string>, Outcome<IoError>)
  {
    if from !in files then (files, Fail(NoSuchFile(from)))
    else if from == to then (files, Pass)
    else if to in files && !replace then (files, Fail(FileAlreadyExists(to)))
    else (files[to := files[from]], Pass)
  }

  /** With REPLACE_EXISTING and an existing source the target ends with the
      source's content, whatever was there before. */
  lemma CopyReplacing(files: map<string, string>, from: string, to: string)
    requires from in files
    ensures CopyFile(files, from, to, true).1 == Pass
    ensures CopyFile(files, from, to, true).0 == files[to := files[from]]
  {
    if from == to {
      assert files[to := files[from]] == files;
    }
  }

  /** Without REPLACE_EXISTING the copy fails whenever the target exists and
      differs from the source; after `createTestCaseFiles` the expected
      output file of the test always exists, so solving a test never
      reaches the disk. */
  lemma CopyWithoutReplaceFailsAfterCreate(files: map<string, string>, s: SyncSettings, t: TestCase)
    requires DistinctExtensions(s)
    ensures var m := WithTestFiles(files, s, t);
            CopyFile(m, t.name + s.programOutputExtension, t.name + s.expectedOutputExtension, false)
              == (m, Fail(FileAlreadyExists(t.name + s.expectedOutputExtension)))
  {
    TestFilesHoldContent(files, s, t);
    DistinctFileNames(t.name, s.expectedOutputExtension, s.programOutputExtension);
  }

  /** The recursive delete of `deleteFromDisk`: the walk visits the
      directory's files in the order `walk` and calls `Files.delete` on
      each. A file the system refuses to delete (one in `locked`) or one
      already gone ends the walk with that error; the files deleted before
      it stay deleted. */
  function WalkDelete(files: map<string, string>, walk: seq<string>, locked: set<string>)
    : (map<string, string>, Outcome<IoError>)
  {
    if walk == [] then (files, Pass)
    else if walk[0] in locked then (files, Fail(AccessDenied(walk[0])))
    else if walk[0] !in files then (files, Fail(NoSuchFile(walk[0])))
    else WalkDelete(files - {walk[0]}, walk[1..], locked)
  }

  /** The walk only deletes: every file left has the content it had. A
      refused file is still there afterwards. */
  lemma {:induction false} WalkOnlyDeletes(files: map<string, string>, walk: seq<string>, locked: set<string>)
    ensures var (after, outcome) := WalkDelete(files, walk, locked);
            after.Keys <= files.Keys && (forall f :: f in after ==> after[f] == files[f]) &&
            (outcome.Fail? && outcome.error.AccessDenied? ==>
               outcome.error.path in locked && (outcome.error.path in files ==> outcome.error.path in after))
  {
    if walk != [] && walk[0] !in locked && walk[0] in files {
      WalkOnlyDeletes(files - {walk[0]}, walk[1..], locked);
    }
  }

  /** The walk lists each file of the directory exactly once. */
  ghost predicate FullWalk(files: map<string, string>, walk: seq<string>)
  {
    (forall f :: f in files <==> f in walk) &&
    forall i, j :: 0 <= i < j < |walk| ==> walk[i] != walk[j]
  }

  /** When the walk lists each file of the directory once, it succeeds
      exactly when no file is refused, and then the directory is empty. */
  lemma {:induction false} WalkOverAllFiles(files: map<string, string>, walk: seq<string>, locked: set<string>)
    requires FullWalk(files, walk)
    ensures WalkDelete(files, walk, locked).1.Pass? <==> forall i :: 0 <= i < |walk| ==> walk[i] !in locked
    ensures WalkDelete(files, walk, locked).1.Pass? ==> WalkDelete(files, walk, locked).0 == map[]
  {
    if walk == [] {
      assert files.Keys == {};
    } else if walk[0] !in locked {
      var rest := walk[1..];
      forall f ensures f in files - {walk[0]} <==> f in rest {
        if f in rest {
          var j :| 0 <= j < |rest| && rest[j] == f;
          assert walk[j + 1] == f;
        }
      }
      forall i, j | 0 <= i < j < |rest| ensures rest[i] != rest[j] {
        assert rest[i] == walk[i + 1] && rest[j] == walk[j + 1];
      }
      WalkOverAllFiles(files - {walk[0]}, rest, locked);
      forall i | 0 <= i < |rest| ensures rest[i] == walk[i + 1] { }
    }
  }

  class ProblemSync {
    const problem: Problem
    const settings: SyncSettings
    /** `Problem.getValue`, which is not part of this model. */
    const getValue: (string, bool) -> string
    const directory: string
    var testCaseNames: set<string>
    var manualTestIndex: nat
    var testSetChanged: bool
    /** The problem's own regeneration flag (`Problem.projectRegenerationRequired`
        and `Problem.markUnchanged` are not part of this model). */
    var problemChanged: bool
    var files: map<string, string>

    /** The name set is exactly the set of names in the shared list, and no
        name occurs twice in it. */
    ghost predicate NamesConsistent()
      reads this, problem
    {
      testCaseNames == NamesOf(problem.testCases) && DistinctNames(problem.testCases)
    }

    /** The directory is the workspace directory joined, as a path, with
        the "problem directory" template with its @key@ tokens replaced,
        which is computed while the sync's own directory is still null; the
        name set collects the names of the problem's tests. */
    constructor (workspaceDirectory: string, problem: Problem, config: Config,
                 getValue: (string, bool) -> string, problemChanged: bool, onDisk: map<string, string>)
      requires "problem directory" in config && "test list file" in config
      ensures this.problem == problem && this.getValue == getValue
      ensures settings == SyncSettingsOf(config)
      ensures directory == JoinPath(workspaceDirectory, Substituted(config["problem directory"], None, getValue, true))
      ensures testCaseNames == NamesOf(problem.testCases)
      ensures manualTestIndex == 1 && testSetChanged && this.problemChanged == problemChanged
      ensures files == onDisk
      ensures DistinctNames(problem.testCases) ==> NamesConsistent()
    {
      this.problem := problem;
      this.getValue := getValue;
      settings := SyncSettingsOf(config);
      var relative := SubstituteTokens(config["problem directory"], None, getValue, true);
      directory := JoinPath(workspaceDirectory, relative);
      manualTestIndex, testSetChanged := 1, true;
      this.problemChanged := problemChanged;
      files := onDisk;
      var tests := problem.testCases;
      var names := {};
      var i := 0;
      while i < |tests|
        invariant 0 <= i <= |tests|
        invariant names == NamesOf(tests[..i])
      {
        assert tests[..i + 1] == tests[..i] + [tests[i]];
        names := names + {tests[i].name};
        i := i + 1;
      }
      assert tests[..i] == tests;
      testCaseNames := names;
    }

    /** `initialize`: the files of every test are created in list order and
        the list file is written. */
    method Initialize()
      modifies this`files
      ensures files == WithAllTestFiles(old(files), settings, problem.testCases)
                         [settings.listFileName := ListFileContent(problem.testCases)]
      ensures forall t :: t in problem.testCases ==>
                t.name + settings.inputExtension in files &&
                t.name + settings.expectedOutputExtension in files &&
                t.name + settings.programOutputExtension in files
    {
      CreateAllTestFiles();
      AllTestFilesPresent(old(files), settings, problem.testCases);
      TestsListChanged();
    }

    /** The loop of `initialize`: the files of every test, in list order. */
    method CreateAllTestFiles()
      modifies this`files
      ensures files == WithAllTestFiles(old(files), settings, problem.testCases)
    {
      var i := 0;
      while i < |problem.testCases|
        invariant 0 <= i <= |problem.testCases|
        invariant files == WithAllTestFiles(old(files), settings, problem.testCases[..i])
      {
        CreateTestCaseFiles(i);
        assert problem.testCases[..i + 1][..i] == problem.testCases[..i];
        i := i + 1;
      }
      assert problem.testCases[..i] == problem.testCases;
    }

    /** The first free manual test name, as in `Problem.getNextTestName`,
        against this sync's own name set and counter. */
    method GetNextTestName() returns (name: string)
      modifies this`manualTestIndex
      ensures old(manualTestIndex) <= manualTestIndex
      ensures name == settings.manualTestName + NatToString(manualTestIndex)
      ensures name !in testCaseNames
      ensures forall j :: old(manualTestIndex) <= j < manualTestIndex ==>
                settings.manualTestName + NatToString(j) in testCaseNames
    {
      manualTestIndex := FirstFreeIndex(testCaseNames, settings.manualTestName, manualTestIndex);
      name := settings.manualTestName + NatToString(manualTestIndex);
    }

    /** Appends the test at index old-size, registers its name, creates its
        files, rewrites the list file and marks the test set changed. */
    method AddTestCase(testCase: TestCase)
      modifies this`testSetChanged, this`testCaseNames, this`files, problem`testCases
      ensures testSetChanged
      ensures problem.testCases == old(problem.testCases) + [testCase]
      ensures testCaseNames == old(testCaseNames) + {testCase.name}
      ensures files == WithTestFiles(old(files), settings, testCase)
                         [settings.listFileName := ListFileContent(problem.testCases)]
      ensures old(NamesConsistent()) && testCase.name !in old(testCaseNames) ==> NamesConsistent()
    {
      testSetChanged := true;
      var index := |problem.testCases|;
      problem.testCases := problem.testCases + [testCase];
      testCaseNames := testCaseNames + {testCase.name};
      CreateTestCaseFiles(index);
      TestsListChanged();
    }

    /** Writes the test's current input to `name + inputExtension`. */
    method TestInputChanged(index: nat)
      requires index < |problem.testCases|
      modifies this`files
      ensures files == old(files)[problem.testCases[index].name + settings.inputExtension :=
                                  problem.testCases[index].input]
    {
      var t := problem.testCases[index];
      files := files[t.name + settings.inputExtension := t.input];
    }

    /** Writes the test's current expected output to
        `name + expectedOutputExtension`. */
    method TestAnswerChanged(index: nat)
      requires index < |problem.testCases|
      modifies this`files
      ensures files == old(files)[problem.testCases[index].name + settings.expectedOutputExtension :=
                                  problem.testCases[index].expectedOutput]
    {
      var t := problem.testCases[index];
      files := files[t.name + settings.expectedOutputExtension := t.expectedOutput];
    }

    /** Writes input and expected output, and creates the program output
        file empty only when it does not exist yet. */
    method CreateTestCaseFiles(index: nat)
      requires index < |problem.testCases|
      modifies this`files
      ensures files == WithTestFiles(old(files), settings, problem.testCases[index])
    {
      TestInputChanged(index);
      TestAnswerChanged(index);
      var programFile := problem.testCases[index].name + settings.programOutputExtension;
      if programFile !in files {
        files := files[programFile := ""];
      }
    }

    /** `setTestSolved` as written: the expected output in memory becomes
        the program output, then the program output file is copied onto the
        expected output file without REPLACE_EXISTING. */
    method SetTestSolvedAsWritten(index: nat) returns (r: Outcome<IoError>)
      requires index < |problem.testCases|
      modifies (problem.testCases[index] as TestCase)`expectedOutput, this`files
      ensures problem.testCases[index].expectedOutput == old(problem.testCases[index].programOutput)
      ensures (files, r) == CopyFile(old(files), problem.testCases[index].name + settings.programOutputExtension,
                                     problem.testCases[index].name + settings.expectedOutputExtension, false)
    {
      var t := problem.testCases[index];
      t.SetExpectedOutput(t.programOutput);
      var copied := CopyFile(files, t.name + settings.programOutputExtension,
                             t.name + settings.expectedOutputExtension, false);
      files, r := copied.0, copied.1;
    }

    /** `setTestSolved` with the copy replacing the existing expected output
        file: whenever the program output file exists the copy succeeds and
        the expected output file takes its content. */
    method SetTestSolved(index: nat) returns (r: Outcome<IoError>)
      requires index < |problem.testCases|
      modifies (problem.testCases[index] as TestCase)`expectedOutput, this`files
      ensures problem.testCases[index].expectedOutput == old(problem.testCases[index].programOutput)
      ensures (files, r) == CopyFile(old(files), problem.testCases[index].name + settings.programOutputExtension,
                                     problem.testCases[index].name + settings.expectedOutputExtension, true)
      ensures problem.testCases[index].name + settings.programOutputExtension in old(files) ==>
                r == Pass &&
                files == old(files)[problem.testCases[index].name + settings.expectedOutputExtension :=
                                    old(files)[problem.testCases[index].name + settings.programOutputExtension]]
    {
      var t := problem.testCases[index];
      t.SetExpectedOutput(t.programOutput);
      var from, to := t.name + settings.programOutputExtension, t.name + settings.expectedOutputExtension;
      if from in files {
        CopyReplacing(files, from, to);
      }
      var copied := CopyFile(files, from, to, true);
      files, r := copied.0, copied.1;
    }

    /** Flips the test's SKIPPED mark and rewrites only the list file. */
    method FlipTestSkipped(index: nat)
      requires index < |problem.testCases|
      modifies (problem.testCases[index] as TestCase)`executionResults, this`files
      ensures problem.testCases[index].executionResults == Flipped(old(problem.testCases[index].executionResults))
      ensures files == old(files)[settings.listFileName := ListFileContent(problem.testCases)]
    {
      problem.testCases[index].FlipSkipped();
      TestsListChanged();
    }

    /** Exchanges two tests of the shared list and rewrites only the list
        file; names and test files stay as they are. */
    method SwapTestCases(index1: nat, index2: nat)
      requires index1 < |problem.testCases| && index2 < |problem.testCases|
      modifies problem`testCases, this`files
      ensures problem.testCases == old(problem.testCases)[index1 := old(problem.testCases)[index2]]
                                                         [index2 := old(problem.testCases)[index1]]
      ensures NamesOf(problem.testCases) == NamesOf(old(problem.testCases))
      ensures files == old(files)[settings.listFileName := ListFileContent(problem.testCases)]
      ensures old(NamesConsistent()) ==> NamesConsistent()
    {
      problem.SwapTestCases(index1, index2);
      TestsListChanged();
    }

    /** Marks the test set changed, then deletes the input, expected output
        and program output files in that order; only when all three
        deletions succeed are the test and its name dropped and the list file
        rewritten. A failed deletion leaves the files deleted before it
        deleted and memory untouched. */
    method DeleteTestCase(index: nat) returns (r: Outcome<IoError>)
      requires index < |problem.testCases|
      modifies this`testSetChanged, this`testCaseNames, this`files, problem`testCases
      ensures testSetChanged
      ensures var name := old(problem.testCases)[index].name;
              var deleted := DeletePaths(old(files), [name + settings.inputExtension,
                                                     name + settings.expectedOutputExtension,
                                                     name + settings.programOutputExtension]);
              r == deleted.1 &&
              (r.Fail? ==> files == deleted.0 && problem.testCases == old(problem.testCases) &&
                           testCaseNames == old(testCaseNames)) &&
              (r.Pass? ==> problem.testCases == old(problem.testCases)[..index] + old(problem.testCases)[index + 1..] &&
                           testCaseNames == old(testCaseNames) - {name} &&
                           files == deleted.0[settings.listFileName := ListFileContent(problem.testCases)])
      ensures old(NamesConsistent()) ==> NamesConsistent()
    {
      testSetChanged := true;
      r := DeleteTestFiles(problem.testCases[index].name);
      if r.Pass? {
        DropTestCase(index);
      }
    }

    /** The three deletions of `deleteTestCase`, in order, stopping at the
        first that fails. */
    method DeleteTestFiles(name: string) returns (r: Outcome<IoError>)
      modifies this`files
      ensures (files, r) == DeletePaths(old(files), [name + settings.inputExtension,
                                                     name + settings.expectedOutputExtension,
                                                     name + settings.programOutputExtension])
    {
      var p1, p2, p3 := name + settings.inputExtension, name + settings.expectedOutputExtension,
                        name + settings.programOutputExtension;
      assert [p1, p2, p3][1..] == [p2, p3] && [p2, p3][1..] == [p3] && [p3][1..] == [];
      r := DeleteFile(p1);
      if r.Fail? {
        return;
      }
      r := DeleteFile(p2);
      if r.Fail? {
        return;
      }
      r := DeleteFile(p3);
    }

    /** The end of a successful `deleteTestCase`: the test and its name are
        dropped and the list file is rewritten. */
    method DropTestCase(index: nat)
      requires index < |problem.testCases|
      modifies this`testCaseNames, this`files, problem`testCases
      ensures problem.testCases == old(problem.testCases)[..index] + old(problem.testCases)[index + 1..]
      ensures testCaseNames == old(testCaseNames) - {old(problem.testCases)[index].name}
      ensures files == old(files)[settings.listFileName := ListFileContent(problem.testCases)]
      ensures old(NamesConsistent()) ==> NamesConsistent()
    {
      var name := problem.testCases[index].name;
      testCaseNames := testCaseNames - {name};
      var kept := problem.testCases[..index] + problem.testCases[index + 1..];
      if old(NamesConsistent()) {
        assert forall k :: 0 <= k < |kept| ==>
          kept[k] == old(problem.testCases)[if k < index then k else k + 1];
        forall n | n in NamesOf(old(problem.testCases)) - {name} ensures n in NamesOf(kept) {
          var k :| 0 <= k < |old(problem.testCases)| && old(problem.testCases)[k].name == n;
          assert k != index;
          assert kept[if k < index then k else k - 1] == old(problem.testCases)[k];
        }
      }
      problem.testCases := kept;
      TestsListChanged();
    }

    /** `Files.delete`: a missing file is an error. */
    method DeleteFile(path: string) returns (r: Outcome<IoError>)
      modifies this`files
      ensures (files, r) == DeletePaths(old(files), [path])
    {
      if path !in files {
        r := Fail(NoSuchFile(path));
      } else {
        files := files - {path};
        r := Pass;
      }
    }

    /** Writes the list file: one line `name results` per test, in list
        order. */
    method TestsListChanged()
      modifies this`files
      ensures files == old(files)[settings.listFileName := ListFileContent(problem.testCases)]
    {
      files := files[settings.listFileName := ListFileContent(problem.testCases)];
    }

    /** `deleteFromDisk`: the walk over the directory deletes its files in
        the order `walk` the file system lists them, and stops at the
        first file that cannot be deleted. */
    method DeleteFromDisk(walk: seq<string>, locked: set<string>) returns (r: Outcome<IoError>)
      modifies this`files
      ensures (files, r) == WalkDelete(old(files), walk, locked)
    {
      var i := 0;
      while i < |walk|
        invariant 0 <= i <= |walk|
        invariant WalkDelete(files, walk[i..], locked) == WalkDelete(old(files), walk, locked)
      {
        assert walk[i..][1..] == walk[i + 1..];
        if walk[i] in locked {
          return Fail(AccessDenied(walk[i]));
        }
        r := DeleteFile(walk[i]);
        if r.Fail? {
          return;
        }
        i := i + 1;
      }
      r := Pass;
    }

    /** `substituteKeys`: odd '@'-tokens replaced, "problem_dir" by this
        sync's directory; text without '@' comes back unchanged. */
    method SubstituteKeys(input: string, namesOnly: bool) returns (r: string)
      ensures r == Substituted(input, Some(directory), getValue, namesOnly)
      ensures '@' !in input ==> r == input
    {
      r := SubstituteTokens(input, Some(directory), getValue, namesOnly);
    }

    /** Regeneration is needed when the problem reports it or the test set
        changed since the last `markUnchanged`. */
    function ProjectRegenerationRequired(): (r: bool)
      reads this
      ensures r <==> problemChanged || testSetChanged
    {
      problemChanged || testSetChanged
    }

    method MarkUnchanged()
      modifies this`problemChanged, this`testSetChanged
      ensures !problemChanged && !testSetChanged
      ensures !ProjectRegenerationRequired()
    {
      problemChanged := false;
      testSetChanged := false;
    }
  }
}
