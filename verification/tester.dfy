/**
 * The test runner that the C++ template links with every solution
 * (templates/cpp/tester.cpp). It finds the test list file next to the
 * binary, reads each test's name and status, runs every test that is not
 * skipped, and rewrites the list file before each test and once at the
 * end, so that the IDE plugin can follow the progress. After the first
 * time-out beyond the allowed number of detached threads it gives up and
 * marks the remaining tests UNKNOWN.
 *
 * Running the solution, the clock and the console are outside the model:
 * `run(k)` is what running test `k` yields, and `hardwareConcurrency` is
 * what `std::thread::hardware_concurrency` reports.
 */
module Tester {
  import opened Strings
  import opened TestCases
  import opened Problems

  // ---------------------------------------------------------------------------
  // Locating the files
  // ---------------------------------------------------------------------------

  /** `std::string::npos`: the largest `size_t`, returned by a failed search. */
  const NPOS: nat := 0xFFFF_FFFF_FFFF_FFFF

  const EXE := ".exe"

  /** The path separators `find_last_of` looks for. */
  const SEPARATORS: set<char> := {'/', '\\'}

  /** The binary path without a trailing ".exe". The suffix compared with
      ".exe" starts at `max(size, 4) - 4`, so a path shorter than four
      characters is compared as a whole and never stripped. */
  function StripExe(binaryPath: string): (path: string)
    ensures |binaryPath| >= 4 && binaryPath[|binaryPath| - 4..] == EXE ==> binaryPath == path + EXE
    ensures !(|binaryPath| >= 4 && binaryPath[|binaryPath| - 4..] == EXE) ==> path == binaryPath
  {
    var from := (if |binaryPath| > 4 then |binaryPath| else 4) - 4;
    if binaryPath[from..] == EXE then binaryPath[..|binaryPath| - 4] else binaryPath
  }

  /** Stripping undoes appending ".exe". */
  lemma StripExeAppended(path: string)
    ensures StripExe(path + EXE) == path
  {
    assert (path + EXE)[|path + EXE| - 4..] == EXE;
  }

  /** `find_last_of`: the position of the last character of `s` that is in
      `chars`, or NPOS when there is none. */
  function FindLastOf(s: string, chars: set<char>): (pos: nat)
    requires |s| <= NPOS
    ensures pos == NPOS <==> forall k :: 0 <= k < |s| ==> s[k] !in chars
    ensures pos != NPOS ==> pos < |s| && s[pos] in chars && forall k :: pos < k < |s| ==> s[k] !in chars
  {
    if s == [] then NPOS
    else if s[|s| - 1] in chars then |s| - 1
    else FindLastOf(s[..|s| - 1], chars)
  }

  /** The directory of the tests list file: everything up to and including
      the last separator. Without a separator `find_last_of` yields NPOS and
      the unsigned `NPOS + 1` wraps around to 0, giving the empty prefix. */
  function TestsDirectory(testsFileName: string): (directory: string)
    requires |testsFileName| <= NPOS
    ensures |directory| <= |testsFileName| && testsFileName[..|directory|] == directory
    ensures directory == [] || directory[|directory| - 1] in SEPARATORS
    ensures forall k :: |directory| <= k < |testsFileName| ==> testsFileName[k] !in SEPARATORS
  {
    var count := (FindLastOf(testsFileName, SEPARATORS) + 1) % (NPOS + 1);
    testsFileName[..count]
  }

  // ---------------------------------------------------------------------------
  // The tests list file
  // ---------------------------------------------------------------------------

  /** One test as the runner sees it: a name and a status text. */
  datatype TestEntry = TestEntry(name: string, status: string)

  /** One line of the list file: the name runs up to the first space, the
      status is everything after it, or empty when the line has no space. */
  function ParseLine(line: string): (entry: TestEntry)
  {
    if ' ' in line then
      var space := FirstIndexOf(line, ' ');
      TestEntry(line[..space], line[space + 1..])
    else TestEntry(line, "")
  }

  /** A line written as name, space, status reads back as that entry. */
  lemma ParseWrittenLine(name: string, status: string)
    requires ' ' !in name
    ensures ParseLine(name + " " + status) == TestEntry(name, status)
  {
    FirstIndexAfterFree(name, ' ', status);
    assert name + " " + status == name + [' '] + status;
  }

  /** The entries of a list file, one per line. */
  function ReadEntries(content: string): (entries: seq<TestEntry>)
    ensures |entries| == |ReadLines(content)|
  {
    var lines := ReadLines(content);
    seq(|lines|, i requires 0 <= i < |lines| => ParseLine(lines[i]))
  }

  /** An entry the list file can hold: a name without spaces or line
      breaks and a status without line breaks. */
  predicate WellFormed(e: TestEntry)
  {
    ' ' !in e.name && '\n' !in e.name && '\n' !in e.status
  }

  /** Every entry read from a file is one the file can hold. */
  lemma ReadEntriesWellFormed(content: string)
    ensures forall i :: 0 <= i < |ReadEntries(content)| ==> WellFormed(ReadEntries(content)[i])
  {
    var lines := ReadLines(content);
    ReadLinesNoBreaks(content);
    forall i | 0 <= i < |lines|
      ensures WellFormed(ParseLine(lines[i]))
    {
      var line := lines[i];
      assert '\n' !in line;
      if ' ' in line {
        var space := FirstIndexOf(line, ' ');
        assert forall ch :: ch in line[..space] ==> ch in line;
        assert forall ch :: ch in line[space + 1..] ==> ch in line;
      }
    }
  }

  /** The reading loop: one entry per line of the list file, in order. */
  method ReadTestCases(content: string) returns (testCases: seq<TestEntry>)
    ensures testCases == ReadEntries(content)
    ensures forall i :: 0 <= i < |testCases| ==> WellFormed(testCases[i])
  {
    var lines := ReadLines(content);
    testCases := [];
    var i := 0;
    while i < |lines|
      invariant i <= |lines|
      invariant testCases == ReadEntries(content)[..i]
    {
      testCases := testCases + [ParseLine(lines[i])];
      i := i + 1;
    }
    ReadEntriesWellFormed(content);
  }

  /** A test whose status is exactly SKIPPED is not run. */
  predicate IsSkipped(e: TestEntry)
  {
    e.status == SKIPPED_KEY
  }

  /** The list file the IDE side writes reads back, test by test, as the
      test's name and its result tokens joined with spaces. */
  lemma {:induction false} ListFileReadsAsEntries(tests: seq<TestCase>)
    requires forall i :: 0 <= i < |tests| ==>
               ' ' !in tests[i].name && '\n' !in tests[i].name && '\n' !in tests[i].GetExecutionResults(" ")
    ensures |ReadEntries(ListFileContent(tests))| == |tests|
    ensures forall i :: 0 <= i < |tests| ==>
              ReadEntries(ListFileContent(tests))[i] == TestEntry(tests[i].name, tests[i].GetExecutionResults(" "))
  {
    ListLinesAt(tests);
    var lines := ListLines(tests);
    forall i | 0 <= i < |lines|
      ensures '\n' !in lines[i]
    {
      assert lines[i] == tests[i].name + " " + tests[i].GetExecutionResults(" ");
    }
    ReadUnlines(lines);
    forall i | 0 <= i < |tests|
      ensures ParseLine(lines[i]) == TestEntry(tests[i].name, tests[i].GetExecutionResults(" "))
    {
      ParseWrittenLine(tests[i].name, tests[i].GetExecutionResults(" "));
    }
  }

  /** The runner skips a test exactly when the IDE side marked it skipped:
      its result tokens are the single token SKIPPED. */
  lemma SkippedExactlyWhenMarked(t: TestCase)
    requires ' ' !in t.name
    ensures IsSkipped(ParseLine(ListLine(t))) <==> t.executionResults == [SKIPPED_KEY]
  {
    ParseWrittenLine(t.name, t.GetExecutionResults(" "));
    JoinIsToken(t.executionResults, SKIPPED_KEY);
  }

  // ---------------------------------------------------------------------------
  // Progress written to the list file
  // ---------------------------------------------------------------------------

  const PENDING_KEY := "PENDING"

  /** The status shown for test `j` while test `testIndex` is about to run:
      earlier tests show their status, the current one RUNNING and later
      ones PENDING. */
  function ProgressStatus(e: TestEntry, j: nat, testIndex: nat): string
  {
    if j < testIndex then e.status else if j == testIndex then RUNNING_KEY else PENDING_KEY
  }

  function ProgressLines(entries: seq<TestEntry>, testIndex: nat): (lines: seq<string>)
    ensures |lines| == |entries|
  {
    seq(|entries|, j requires 0 <= j < |entries| => entries[j].name + " " + ProgressStatus(entries[j], j, testIndex))
  }

  /** The list file written before test `testIndex` runs (`testIndex` equal
      to the number of tests: the final write). */
  function ProgressFile(entries: seq<TestEntry>, testIndex: nat): string
  {
    Unlines(ProgressLines(entries, testIndex))
  }

  /** A progress file reads back as the same tests with their progress
      statuses; the final one reads back as the entries themselves. */
  lemma ProgressFileReadsBack(entries: seq<TestEntry>, testIndex: nat)
    requires forall j :: 0 <= j < |entries| ==> WellFormed(entries[j])
    ensures |ReadEntries(ProgressFile(entries, testIndex))| == |entries|
    ensures forall j :: 0 <= j < |entries| ==>
              ReadEntries(ProgressFile(entries, testIndex))[j] ==
              TestEntry(entries[j].name, ProgressStatus(entries[j], j, testIndex))
    ensures testIndex >= |entries| ==> ReadEntries(ProgressFile(entries, testIndex)) == entries
  {
    var lines := ProgressLines(entries, testIndex);
    forall j | 0 <= j < |lines|
      ensures '\n' !in lines[j]
    {
      assert '\n' !in ProgressStatus(entries[j], j, testIndex);
    }
    ReadUnlines(lines);
    forall j | 0 <= j < |entries|
      ensures ParseLine(lines[j]) == TestEntry(entries[j].name, ProgressStatus(entries[j], j, testIndex))
    {
      ParseWrittenLine(entries[j].name, ProgressStatus(entries[j], j, testIndex));
    }
  }

  /** The progress file only depends on the names and on the statuses of
      the tests before `testIndex`. */
  lemma SameProgress(a: seq<TestEntry>, b: seq<TestEntry>, testIndex: nat)
    requires |a| == |b|
    requires forall j :: 0 <= j < |a| ==> a[j].name == b[j].name
    requires forall j :: 0 <= j < |a| && j < testIndex ==> a[j] == b[j]
    ensures ProgressFile(a, testIndex) == ProgressFile(b, testIndex)
  {
    assert ProgressLines(a, testIndex) == ProgressLines(b, testIndex);
  }

  /** The file so far grows by one line and its line separator. */
  lemma AppendLine(lines: seq<string>, i: nat)
    requires i < |lines|
    ensures Unlines(lines[..i + 1]) == Unlines(lines[..i]) + lines[i] + "\n"
  {
    UnlinesSnoc(lines[..i], lines[i]);
    assert lines[..i + 1] == lines[..i] + [lines[i]];
  }

  /** The writing loops: the lines before `testIndex`, the RUNNING line, the
      PENDING lines. */
  method WriteProgress(testCases: seq<TestEntry>, testIndex: nat) returns (content: string)
    requires testIndex <= |testCases|
    ensures content == ProgressFile(testCases, testIndex)
  {
    var n := |testCases|;
    ghost var lines := ProgressLines(testCases, testIndex);
    content := "";
    var i := 0;
    while i < testIndex
      invariant i <= testIndex
      invariant content == Unlines(lines[..i])
    {
      AppendLine(lines, i);
      content := content + (testCases[i].name + " " + testCases[i].status) + "\n";
      i := i + 1;
    }
    if testIndex < n {
      AppendLine(lines, testIndex);
      content := content + (testCases[testIndex].name + " " + RUNNING_KEY) + "\n";
    }
    i := testIndex + 1;
    while i < n
      invariant testIndex < i
      invariant i <= n ==> content == Unlines(lines[..i])
      invariant i > n ==> i == n + 1 && content == Unlines(lines[..n])
    {
      AppendLine(lines, i);
      content := content + (testCases[i].name + " " + PENDING_KEY) + "\n";
      i := i + 1;
    }
    assert lines[..n] == lines;
  }

  // ---------------------------------------------------------------------------
  // Running the tests
  // ---------------------------------------------------------------------------

  /** What running one test yields: a time-out after one second, a
      `std::exception` thrown by the solution (with its message), or a
      normal end. Times are in whole milliseconds, as measured. */
  datatype RunOutcome =
    | TimeLimit(millis: nat)
    | RuntimeError(millis: nat, what: string)
    | Passed(millis: nat)

  /** A time in milliseconds printed as seconds with three decimals
      (`std::fixed` with precision 3). */
  function Seconds(millis: nat): (text: string)
    ensures ' ' !in text && '\n' !in text
  {
    var fraction := millis % 1000;
    NatToString(millis / 1000) + "." + [DigitChar(fraction / 100), DigitChar(fraction / 10 % 10), DigitChar(fraction % 10)]
  }

  /** The status stored for a test that was run: the verdict, a space, the
      time, and for a runtime error a space and the message. */
  function ResultText(outcome: RunOutcome): string
  {
    match outcome
    case TimeLimit(millis) => "TLE " + Seconds(millis)
    case RuntimeError(millis, what) => "RE " + Seconds(millis) + " " + what
    case Passed(millis) => "OK " + Seconds(millis)
  }

  /** The verdict printed in colour: the status up to its first space. */
  function Verdict(status: string): string
  {
    ParseLine(status).name
  }

  /** The printed verdict is TLE, RE or OK, and it is shown green (it is OK)
      exactly when the test passed. */
  lemma VerdictOfOutcome(outcome: RunOutcome)
    ensures Verdict(ResultText(outcome)) == (match outcome
                                             case TimeLimit(_) => "TLE"
                                             case RuntimeError(_, _) => "RE"
                                             case Passed(_) => "OK")
    ensures Verdict(ResultText(outcome)) == "OK" <==> outcome.Passed?
  {
    match outcome
    case TimeLimit(millis) =>
      ParseWrittenLine("TLE", Seconds(millis));
    case RuntimeError(millis, what) =>
      assert ResultText(outcome) == "RE" + " " + (Seconds(millis) + " " + what);
      ParseWrittenLine("RE", Seconds(millis) + " " + what);
    case Passed(millis) =>
      ParseWrittenLine("OK", Seconds(millis));
  }

  /** The number of tests that may time out and be left running in a
      detached thread: `max(2, hardwareConcurrency) - 2`. */
  function Allowed(hardwareConcurrency: nat): nat
  {
    (if hardwareConcurrency > 2 then hardwareConcurrency else 2) - 2
  }

  /** Test `k` is run and times out. */
  predicate TimedOut(entries: seq<TestEntry>, run: nat -> RunOutcome, k: nat)
    requires k < |entries|
  {
    !IsSkipped(entries[k]) && run(k).TimeLimit?
  }

  /** The number of time-outs among the tests before `j`. */
  function TimeoutsBefore(entries: seq<TestEntry>, run: nat -> RunOutcome, j: nat): nat
    requires j <= |entries|
  {
    if j == 0 then 0 else TimeoutsBefore(entries, run, j - 1) + (if TimedOut(entries, run, j - 1) then 1 else 0)
  }

  /** Testing is aborted at test `j`: it times out when every allowed
      detached thread is already used. */
  predicate AbortsAt(entries: seq<TestEntry>, run: nat -> RunOutcome, allowed: nat, j: nat)
    requires j < |entries|
  {
    TimedOut(entries, run, j) && TimeoutsBefore(entries, run, j) == allowed
  }

  /** The first test from `j` on at which testing is aborted, or the number
      of tests when it is not. */
  function AbortFrom(entries: seq<TestEntry>, run: nat -> RunOutcome, allowed: nat, j: nat): (stop: nat)
    requires j <= |entries|
    ensures j <= stop <= |entries|
    ensures stop < |entries| ==> AbortsAt(entries, run, allowed, stop)
    ensures forall k :: j <= k < stop ==> !AbortsAt(entries, run, allowed, k)
    decreases |entries| - j
  {
    if j == |entries| || AbortsAt(entries, run, allowed, j) then j else AbortFrom(entries, run, allowed, j + 1)
  }

  /** The number of leading tests the loop gets through: up to and
      including the one at which it aborts. */
  function Reached(entries: seq<TestEntry>, run: nat -> RunOutcome, allowed: nat): (k: nat)
    ensures k <= |entries|
  {
    var stop := AbortFrom(entries, run, allowed, 0);
    if stop < |entries| then stop + 1 else |entries|
  }

  /** The status a test ends with: a skipped test keeps it, a test run
      before or at the abort gets its result, any later one UNKNOWN. */
  function FinalStatus(entries: seq<TestEntry>, run: nat -> RunOutcome, allowed: nat, j: nat): string
    requires j < |entries|
  {
    if IsSkipped(entries[j]) then entries[j].status
    else if j <= AbortFrom(entries, run, allowed, 0) then ResultText(run(j))
    else UNKNOWN_KEY
  }

  function FinalEntries(entries: seq<TestEntry>, run: nat -> RunOutcome, allowed: nat): (final: seq<TestEntry>)
    ensures |final| == |entries|
    ensures forall j :: 0 <= j < |entries| ==> final[j].name == entries[j].name
  {
    seq(|entries|, j requires 0 <= j < |entries| => TestEntry(entries[j].name, FinalStatus(entries, run, allowed, j)))
  }

  /** The tests from `k` up to `r` that are not skipped, in order: those
      the loop runs and counts. */
  function RanBetween(entries: seq<TestEntry>, k: nat, r: nat): seq<nat>
    requires r <= |entries|
    decreases r - k
  {
    if k >= r then [] else (if IsSkipped(entries[k]) then [] else [k]) + RanBetween(entries, k + 1, r)
  }

  /** The number of tests from `k` up to `r` that are run and pass. */
  function PassedBetween(entries: seq<TestEntry>, run: nat -> RunOutcome, k: nat, r: nat): nat
    requires r <= |entries|
    decreases r - k
  {
    if k >= r then 0
    else (if !IsSkipped(entries[k]) && run(k).Passed? then 1 else 0) + PassedBetween(entries, run, k + 1, r)
  }

  /** The closing line: "All tests passed:" exactly when every test run
      passed, then the counts. */
  function Summary(testsPassed: nat, testsTotal: nat): (line: string)
    ensures |line| >= 17
    ensures line[..17] == "All tests passed:" <==> testsPassed == testsTotal
  {
    var head := if testsPassed == testsTotal then "All tests passed:" else "Not all tests passed:";
    var line := head + " " + NatToString(testsPassed) + " / " + NatToString(testsTotal);
    assert line[..17] == head[..17];
    assert testsPassed != testsTotal ==> line[..17][0] == 'N';
    line
  }

  lemma {:induction false} TimeoutsMonotone(entries: seq<TestEntry>, run: nat -> RunOutcome, i: nat, j: nat)
    requires i <= j <= |entries|
    ensures TimeoutsBefore(entries, run, i) <= TimeoutsBefore(entries, run, j)
    decreases j
  {
    if i < j {
      TimeoutsMonotone(entries, run, i, j - 1);
    }
  }

  /** Before the abort, no more tests have timed out than allowed. */
  lemma {:induction false} TimeoutsBounded(entries: seq<TestEntry>, run: nat -> RunOutcome, allowed: nat, j: nat)
    requires j <= AbortFrom(entries, run, allowed, 0)
    ensures TimeoutsBefore(entries, run, j) <= allowed
  {
    if j > 0 {
      TimeoutsBounded(entries, run, allowed, j - 1);
      assert !AbortsAt(entries, run, allowed, j - 1);
    }
  }

  /** Testing is aborted exactly when more tests time out than there are
      detached threads allowed. */
  lemma AbortExactlyOnTooManyTimeouts(entries: seq<TestEntry>, run: nat -> RunOutcome, allowed: nat)
    ensures AbortFrom(entries, run, allowed, 0) < |entries| <==> TimeoutsBefore(entries, run, |entries|) > allowed
  {
    var stop := AbortFrom(entries, run, allowed, 0);
    if stop < |entries| {
      TimeoutsMonotone(entries, run, stop + 1, |entries|);
    } else {
      TimeoutsBounded(entries, run, allowed, |entries|);
    }
  }

  /** No test is left RUNNING or PENDING once the run is over. */
  lemma NoProgressLeft(entries: seq<TestEntry>, run: nat -> RunOutcome, allowed: nat, j: nat)
    requires j < |entries|
    ensures FinalStatus(entries, run, allowed, j) != RUNNING_KEY
    ensures FinalStatus(entries, run, allowed, j) != PENDING_KEY
  {
    var status := FinalStatus(entries, run, allowed, j);
    if !IsSkipped(entries[j]) && j <= AbortFrom(entries, run, allowed, 0) {
      var text := ResultText(run(j));
      match run(j)
      case TimeLimit(_) => assert text[3] == ' ';
      case RuntimeError(_, _) => assert text[2] == ' ';
      case Passed(_) => assert text[2] == ' ';
      assert ' ' in status;
    }
  }

  /** The final list file reads back as the final entries, provided no
      runtime error message holds a line break. */
  lemma FinalFileReadsBack(content: string, run: nat -> RunOutcome, allowed: nat)
    requires forall k :: '\n' !in ResultText(run(k))
    ensures var final := FinalEntries(ReadEntries(content), run, allowed);
            ReadEntries(ProgressFile(final, |final|)) == final
  {
    var entries := ReadEntries(content);
    var final := FinalEntries(entries, run, allowed);
    ReadEntriesWellFormed(content);
    forall j | 0 <= j < |final|
      ensures WellFormed(final[j])
    {
      assert WellFormed(entries[j]);
    }
    ProgressFileReadsBack(final, |final|);
  }

  /** The tests run are exactly those from `k` up to `r` that are not
      skipped, in increasing order. */
  lemma RanBetweenExactly(entries: seq<TestEntry>, k: nat, r: nat)
    requires r <= |entries|
    ensures forall i :: i in RanBetween(entries, k, r) <==> k <= i < r && !IsSkipped(entries[i])
    ensures forall i :: 0 <= i < |RanBetween(entries, k, r)| ==> k <= RanBetween(entries, k, r)[i] < r
    ensures forall i, j :: 0 <= i < j < |RanBetween(entries, k, r)| ==> RanBetween(entries, k, r)[i] < RanBetween(entries, k, r)[j]
  {
    RanBetweenBounded(entries, k, r);
    RanBetweenMembers(entries, k, r);
    RanBetweenIncreasing(entries, k, r);
  }

  lemma {:induction false} RanBetweenBounded(entries: seq<TestEntry>, k: nat, r: nat)
    requires r <= |entries|
    ensures forall i :: 0 <= i < |RanBetween(entries, k, r)| ==> k <= RanBetween(entries, k, r)[i] < r
    decreases r - k
  {
    if k < r {
      RanBetweenBounded(entries, k + 1, r);
      var rest := RanBetween(entries, k + 1, r);
      if !IsSkipped(entries[k]) {
        assert RanBetween(entries, k, r) == [k] + rest;
      } else {
        assert RanBetween(entries, k, r) == rest;
      }
    }
  }

  lemma {:induction false} RanBetweenMembers(entries: seq<TestEntry>, k: nat, r: nat)
    requires r <= |entries|
    ensures forall i :: i in RanBetween(entries, k, r) <==> k <= i < r && !IsSkipped(entries[i])
    decreases r - k
  {
    if k < r {
      RanBetweenMembers(entries, k + 1, r);
      var rest := RanBetween(entries, k + 1, r);
      if !IsSkipped(entries[k]) {
        assert RanBetween(entries, k, r) == [k] + rest;
      } else {
        assert RanBetween(entries, k, r) == rest;
      }
    }
  }

  lemma {:induction false} RanBetweenIncreasing(entries: seq<TestEntry>, k: nat, r: nat)
    requires r <= |entries|
    ensures forall i, j :: 0 <= i < j < |RanBetween(entries, k, r)| ==> RanBetween(entries, k, r)[i] < RanBetween(entries, k, r)[j]
    decreases r - k
  {
    if k < r {
      RanBetweenIncreasing(entries, k + 1, r);
      RanBetweenBounded(entries, k + 1, r);
      var rest := RanBetween(entries, k + 1, r);
      if !IsSkipped(entries[k]) {
        var ran := [k] + rest;
        assert RanBetween(entries, k, r) == ran;
        forall i, j | 0 <= i < j < |ran|
          ensures ran[i] < ran[j]
        {
          assert ran[j] == rest[j - 1] && k + 1 <= rest[j - 1];
          if i > 0 {
            assert ran[i] == rest[i - 1];
          }
        }
      } else {
        assert RanBetween(entries, k, r) == rest;
      }
    }
  }

  lemma {:induction false} PassedAtMostRan(entries: seq<TestEntry>, run: nat -> RunOutcome, k: nat, r: nat)
    requires r <= |entries|
    ensures PassedBetween(entries, run, k, r) <= |RanBetween(entries, k, r)|
    decreases r - k
  {
    if k < r {
      PassedAtMostRan(entries, run, k + 1, r);
    }
  }

  /** After the abort, a test keeps its entry when it is skipped and is
      UNKNOWN otherwise. */
  lemma FinalAfterAbort(entries: seq<TestEntry>, run: nat -> RunOutcome, allowed: nat, j: nat)
    requires AbortFrom(entries, run, allowed, 0) < j < |entries|
    ensures FinalEntries(entries, run, allowed)[j] ==
              if IsSkipped(entries[j]) then entries[j] else TestEntry(entries[j].name, UNKNOWN_KEY)
  {
  }

  /** The list after the abort loop: from `from` on, every test that is not
      skipped is UNKNOWN. */
  function Marked(entries: seq<TestEntry>, from: nat): (marked: seq<TestEntry>)
    ensures |marked| == |entries|
  {
    seq(|entries|, j requires 0 <= j < |entries| =>
          if j < from || IsSkipped(entries[j]) then entries[j] else TestEntry(entries[j].name, UNKNOWN_KEY))
  }

  /** The abort loop. */
  method MarkUnknown(testCases: array<TestEntry>, from: nat)
    requires from <= testCases.Length
    modifies testCases
    ensures testCases[..] == Marked(old(testCases[..]), from)
  {
    ghost var original := testCases[..];
    var testIndex := from;
    while testIndex < testCases.Length
      invariant from <= testIndex <= testCases.Length
      invariant forall j :: 0 <= j < testCases.Length ==>
                  testCases[j] == if j < testIndex then Marked(original, from)[j] else original[j]
    {
      if !IsSkipped(testCases[testIndex]) {
        testCases[testIndex] := TestEntry(testCases[testIndex].name, UNKNOWN_KEY);
      }
      testIndex := testIndex + 1;
    }
    assert testCases[..] == Marked(original, from);
  }

  /** What the main loop leaves behind: the list of tests, the successive
      contents of the list file and the test each of them was written before
      (the number of tests for the last), and the counts of tests run and
      passed. */
  datatype RunRecord = RunRecord(entries: seq<TestEntry>, writes: seq<string>, steps: seq<nat>,
                                 testsTotal: nat, testsPassed: nat)

  /** The main loop from test `testIndex` on, with the list `entries` and
      `allowed` detached threads left: a skipped test is passed over; any
      other is counted, the list file is written, and it is run; its result
      becomes its status. A time-out uses up one allowed thread, and a
      time-out with none left aborts: every later test that is not skipped
      becomes UNKNOWN and only the last write follows. */
  function RunFrom(entries: seq<TestEntry>, run: nat -> RunOutcome, testIndex: nat, allowed: nat): RunRecord
    requires testIndex <= |entries|
    decreases |entries| - testIndex
  {
    if testIndex < |entries| && IsSkipped(entries[testIndex]) then RunFrom(entries, run, testIndex + 1, allowed)
    else if testIndex == |entries| then RunRecord(entries, [ProgressFile(entries, testIndex)], [testIndex], 0, 0)
    else
      var outcome := run(testIndex);
      var abort := outcome.TimeLimit? && allowed == 0;
      var updated := Recorded(entries, testIndex, outcome);
      var rest := if abort then RunFrom(Marked(updated, testIndex + 1), run, |entries|, allowed)
                  else RunFrom(updated, run, testIndex + 1, if outcome.TimeLimit? then allowed - 1 else allowed);
      Counted(entries, testIndex, outcome.Passed?, rest)
  }

  /** The list once test `testIndex` has been run: its result is its status. */
  function Recorded(entries: seq<TestEntry>, testIndex: nat, outcome: RunOutcome): seq<TestEntry>
    requires testIndex < |entries|
  {
    entries[testIndex := TestEntry(entries[testIndex].name, ResultText(outcome))]
  }

  /** What is already done, followed by the rest of the loop. */
  function Extend(writes: seq<string>, steps: seq<nat>, testsTotal: nat, testsPassed: nat, rest: RunRecord): RunRecord
  {
    RunRecord(rest.entries, writes + rest.writes, steps + rest.steps,
              testsTotal + rest.testsTotal, testsPassed + rest.testsPassed)
  }

  /** A test run, then the rest of the loop. */
  function Counted(entries: seq<TestEntry>, testIndex: nat, passed: bool, rest: RunRecord): RunRecord
  {
    RunRecord(rest.entries, [ProgressFile(entries, testIndex)] + rest.writes, [testIndex] + rest.steps,
              rest.testsTotal + 1, rest.testsPassed + (if passed then 1 else 0))
  }

  /** A test run moves from the rest of the loop to what is done. */
  lemma ExtendCounted(writes: seq<string>, steps: seq<nat>, testsTotal: nat, testsPassed: nat,
                      entries: seq<TestEntry>, testIndex: nat, passed: bool, rest: RunRecord)
    ensures Extend(writes, steps, testsTotal, testsPassed, Counted(entries, testIndex, passed, rest)) ==
            Extend(writes + [ProgressFile(entries, testIndex)], steps + [testIndex], testsTotal + 1,
                   testsPassed + (if passed then 1 else 0), rest)
  {
    assert writes + ([ProgressFile(entries, testIndex)] + rest.writes) == writes + [ProgressFile(entries, testIndex)] + rest.writes;
    assert steps + ([testIndex] + rest.steps) == steps + [testIndex] + rest.steps;
  }

  /** The list part way through the loop: the tests before `k` hold their
      final entries, the others their original ones. */
  function Mix(final: seq<TestEntry>, entries: seq<TestEntry>, k: nat): seq<TestEntry>
    requires |final| == |entries|
  {
    seq(|entries|, j requires 0 <= j < |entries| => if j < k then final[j] else entries[j])
  }

  /** The detached threads left once the tests before `k` have run. */
  function Left(entries: seq<TestEntry>, run: nat -> RunOutcome, allowed: nat, k: nat): nat
    requires k <= |entries|
  {
    if TimeoutsBefore(entries, run, k) <= allowed then allowed - TimeoutsBefore(entries, run, k) else 0
  }

  /** The list files written before the tests `steps`, with the statuses
      `entries`. */
  function WritesAt(entries: seq<TestEntry>, steps: seq<nat>): (writes: seq<string>)
    ensures |writes| == |steps|
  {
    seq(|steps|, w requires 0 <= w < |steps| => ProgressFile(entries, steps[w]))
  }

  /** A record of the loop that ends with the list `final`, has written it
      before each of the tests `ran` and once more at the end (after test
      `n - 1`), has counted the tests `ran` and `passed` of them. */
  function Planned(final: seq<TestEntry>, n: nat, ran: seq<nat>, passed: nat): RunRecord
  {
    RunRecord(final, WritesAt(final, ran + [n]), ran + [n], |ran|, passed)
  }

  /** What the loop is meant to do from test `k` on: end with the final
      entries, write the list file before each test it runs up to the
      abort and once more at the end, and count the tests run and passed
      up to the abort. */
  function Expected(entries: seq<TestEntry>, run: nat -> RunOutcome, allowed: nat, k: nat): RunRecord
    requires k <= |entries|
  {
    var reached := Reached(entries, run, allowed);
    Planned(FinalEntries(entries, run, allowed), |entries|,
            if k <= reached then RanBetween(entries, k, reached) else [],
            if k <= reached then PassedBetween(entries, run, k, reached) else 0)
  }

  /** One more test run in front of a record. */
  lemma PlannedCounted(final: seq<TestEntry>, n: nat, k: nat, ran: seq<nat>, passed: nat, passedNow: bool)
    ensures Planned(final, n, [k] + ran, passed + (if passedNow then 1 else 0)) ==
            Counted(final, k, passedNow, Planned(final, n, ran, passed))
  {
    assert [k] + ran + [n] == [k] + (ran + [n]);
    assert WritesAt(final, [k] + (ran + [n])) == [ProgressFile(final, k)] + WritesAt(final, ran + [n]);
  }

  /** The last write, once every test is done. */
  lemma MeetsAtEnd(entries: seq<TestEntry>, run: nat -> RunOutcome, allowed: nat)
    requires AbortFrom(entries, run, allowed, 0) == |entries|
    ensures Current(entries, run, allowed, |entries|) == Expected(entries, run, allowed, |entries|)
  {
    var final := FinalEntries(entries, run, allowed);
    assert Mix(final, entries, |entries|) == final;
    assert RanBetween(entries, |entries|, |entries|) == [];
  }

  /** The loop from test `k` on, at the state the specification gives:
      the tests before `k` hold their final entries and as many threads are
      left as the earlier time-outs leave. */
  function Current(entries: seq<TestEntry>, run: nat -> RunOutcome, allowed: nat, k: nat): RunRecord
    requires k <= |entries|
  {
    RunFrom(Mix(FinalEntries(entries, run, allowed), entries, k), run, k, Left(entries, run, allowed, k))
  }

  /** A skipped test keeps its entry and changes nothing else. */
  lemma MeetsSkipped(entries: seq<TestEntry>, run: nat -> RunOutcome, allowed: nat, k: nat)
    requires k < |entries| && IsSkipped(entries[k])
    ensures Current(entries, run, allowed, k) == Current(entries, run, allowed, k + 1)
  {
    var final := FinalEntries(entries, run, allowed);
    assert final[k] == entries[k];
    assert Mix(final, entries, k) == Mix(final, entries, k + 1);
    assert TimeoutsBefore(entries, run, k + 1) == TimeoutsBefore(entries, run, k);
  }

  /** The specification passes over a skipped test. */
  lemma ExpectedSkipped(entries: seq<TestEntry>, run: nat -> RunOutcome, allowed: nat, k: nat)
    requires k < |entries| && IsSkipped(entries[k]) && k <= AbortFrom(entries, run, allowed, 0)
    ensures k + 1 <= AbortFrom(entries, run, allowed, 0)
    ensures Expected(entries, run, allowed, k) == Expected(entries, run, allowed, k + 1)
  {
    var reached := Reached(entries, run, allowed);
    assert k < reached;
    assert RanBetween(entries, k, reached) == RanBetween(entries, k + 1, reached);
    assert PassedBetween(entries, run, k, reached) == PassedBetween(entries, run, k + 1, reached);
  }

  /** Recording the final status of test `k` moves the boundary by one. */
  lemma MixRecorded(final: seq<TestEntry>, entries: seq<TestEntry>, k: nat, outcome: RunOutcome)
    requires |final| == |entries| && k < |entries|
    requires final[k] == TestEntry(entries[k].name, ResultText(outcome))
    ensures Recorded(Mix(final, entries, k), k, outcome) == Mix(final, entries, k + 1)
  {
  }

  /** Part way through, the list file shows the final statuses so far. */
  lemma MixProgress(final: seq<TestEntry>, entries: seq<TestEntry>, k: nat)
    requires |final| == |entries|
    requires forall j :: 0 <= j < |entries| ==> final[j].name == entries[j].name
    ensures ProgressFile(Mix(final, entries, k), k) == ProgressFile(final, k)
  {
    SameProgress(Mix(final, entries, k), final, k);
  }

  /** Before the abort, a time-out uses up one thread and leaves the rest. */
  lemma LeftAfterRun(entries: seq<TestEntry>, run: nat -> RunOutcome, allowed: nat, k: nat)
    requires k < AbortFrom(entries, run, allowed, 0) && !IsSkipped(entries[k])
    ensures !(run(k).TimeLimit? && Left(entries, run, allowed, k) == 0)
    ensures Left(entries, run, allowed, k + 1) ==
            if run(k).TimeLimit? then Left(entries, run, allowed, k) - 1 else Left(entries, run, allowed, k)
  {
    TimeoutsBounded(entries, run, allowed, k + 1);
    assert !AbortsAt(entries, run, allowed, k);
  }

  /** A test run before the abort gets its final status and is counted. */
  lemma MeetsRun(entries: seq<TestEntry>, run: nat -> RunOutcome, allowed: nat, k: nat)
    requires k < AbortFrom(entries, run, allowed, 0) && !IsSkipped(entries[k])
    ensures Current(entries, run, allowed, k) ==
            Counted(FinalEntries(entries, run, allowed), k, run(k).Passed?, Current(entries, run, allowed, k + 1))
  {
    var final := FinalEntries(entries, run, allowed);
    var current := Mix(final, entries, k);
    assert final[k] == TestEntry(entries[k].name, ResultText(run(k)));
    MixRecorded(final, entries, k, run(k));
    MixProgress(final, entries, k);
    LeftAfterRun(entries, run, allowed, k);
  }

  /** The specification takes the same step: a test run before the abort
      is written, counted, and counted as passed when it passes. */
  lemma ExpectedRun(entries: seq<TestEntry>, run: nat -> RunOutcome, allowed: nat, k: nat)
    requires k < AbortFrom(entries, run, allowed, 0) && !IsSkipped(entries[k])
    ensures Expected(entries, run, allowed, k) ==
            Counted(FinalEntries(entries, run, allowed), k, run(k).Passed?, Expected(entries, run, allowed, k + 1))
  {
    var reached := Reached(entries, run, allowed);
    PlannedCounted(FinalEntries(entries, run, allowed), |entries|, k, RanBetween(entries, k + 1, reached),
                   PassedBetween(entries, run, k + 1, reached), run(k).Passed?);
  }

  /** The test at which testing aborts gets its final status, every later
      test that is not skipped becomes UNKNOWN, and only the last write
      follows. */
  lemma MeetsAbort(entries: seq<TestEntry>, run: nat -> RunOutcome, allowed: nat, k: nat)
    requires k == AbortFrom(entries, run, allowed, 0) < |entries|
    ensures Current(entries, run, allowed, k) ==
            Counted(FinalEntries(entries, run, allowed), k, false,
                    RunRecord(FinalEntries(entries, run, allowed), [ProgressFile(FinalEntries(entries, run, allowed), |entries|)],
                              [|entries|], 0, 0))
  {
    var final := FinalEntries(entries, run, allowed);
    var current := Mix(final, entries, k);
    assert final[k] == TestEntry(entries[k].name, ResultText(run(k)));
    MixRecorded(final, entries, k, run(k));
    MixProgress(final, entries, k);
    forall j | k < j < |entries| {
      FinalAfterAbort(entries, run, allowed, j);
    }
    assert Marked(Mix(final, entries, k + 1), k + 1) == final;
    assert Left(entries, run, allowed, k) == 0 && run(k).TimeLimit?;
    assert RunFrom(final, run, |entries|, 0) == RunRecord(final, [ProgressFile(final, |entries|)], [|entries|], 0, 0);
  }

  /** The specification's last step: the abort test is written and counted,
      then the last write. */
  lemma ExpectedAbort(entries: seq<TestEntry>, run: nat -> RunOutcome, allowed: nat, k: nat)
    requires k == AbortFrom(entries, run, allowed, 0) < |entries|
    ensures Expected(entries, run, allowed, k) ==
            Counted(FinalEntries(entries, run, allowed), k, false,
                    RunRecord(FinalEntries(entries, run, allowed), [ProgressFile(FinalEntries(entries, run, allowed), |entries|)],
                              [|entries|], 0, 0))
  {
    var final := FinalEntries(entries, run, allowed);
    assert Reached(entries, run, allowed) == k + 1;
    assert RanBetween(entries, k, k + 1) == [k];
    assert PassedBetween(entries, run, k, k + 1) == 0;
    PlannedCounted(final, |entries|, k, [], 0, false);
    assert WritesAt(final, [|entries|]) == [ProgressFile(final, |entries|)];
  }

  /** The loop meets its specification from any test up to the abort, with
      the earlier tests holding their final entries and as many threads
      left as the earlier time-outs leave. */
  lemma {:induction false} RunFromMeetsSpec(entries: seq<TestEntry>, run: nat -> RunOutcome, allowed: nat, k: nat)
    requires k <= AbortFrom(entries, run, allowed, 0)
    ensures Current(entries, run, allowed, k) == Expected(entries, run, allowed, k)
    decreases |entries| - k
  {
    if k < AbortFrom(entries, run, allowed, 0) {
      RunFromMeetsSpec(entries, run, allowed, k + 1);
      StepBefore(entries, run, allowed, k);
    } else {
      StepLast(entries, run, allowed, k);
    }
  }

  /** Where the loop stops, at the abort or at the end, it meets its
      specification. */
  lemma StepLast(entries: seq<TestEntry>, run: nat -> RunOutcome, allowed: nat, k: nat)
    requires k == AbortFrom(entries, run, allowed, 0)
    ensures Current(entries, run, allowed, k) == Expected(entries, run, allowed, k)
  {
    if k == |entries| {
      MeetsAtEnd(entries, run, allowed);
    } else {
      StepAbort(entries, run, allowed, k);
    }
  }

  /** A test before the abort, skipped or run, keeps the loop on its
      specification. */
  lemma StepBefore(entries: seq<TestEntry>, run: nat -> RunOutcome, allowed: nat, k: nat)
    requires k < AbortFrom(entries, run, allowed, 0)
    requires Current(entries, run, allowed, k + 1) == Expected(entries, run, allowed, k + 1)
    ensures Current(entries, run, allowed, k) == Expected(entries, run, allowed, k)
  {
    if IsSkipped(entries[k]) {
      StepSkipped(entries, run, allowed, k);
    } else {
      StepRun(entries, run, allowed, k);
    }
  }

  /** The test at which testing aborts ends the loop as the specification
      says. */
  lemma StepAbort(entries: seq<TestEntry>, run: nat -> RunOutcome, allowed: nat, k: nat)
    requires k == AbortFrom(entries, run, allowed, 0) < |entries|
    ensures Current(entries, run, allowed, k) == Expected(entries, run, allowed, k)
  {
    MeetsAbort(entries, run, allowed, k);
    ExpectedAbort(entries, run, allowed, k);
  }

  /** A skipped test keeps the loop on its specification. */
  lemma StepSkipped(entries: seq<TestEntry>, run: nat -> RunOutcome, allowed: nat, k: nat)
    requires k < AbortFrom(entries, run, allowed, 0) && IsSkipped(entries[k])
    requires Current(entries, run, allowed, k + 1) == Expected(entries, run, allowed, k + 1)
    ensures Current(entries, run, allowed, k) == Expected(entries, run, allowed, k)
  {
    MeetsSkipped(entries, run, allowed, k);
    ExpectedSkipped(entries, run, allowed, k);
  }

  /** A test run before the abort keeps the loop on its specification. */
  lemma StepRun(entries: seq<TestEntry>, run: nat -> RunOutcome, allowed: nat, k: nat)
    requires k < AbortFrom(entries, run, allowed, 0) && !IsSkipped(entries[k])
    requires Current(entries, run, allowed, k + 1) == Expected(entries, run, allowed, k + 1)
    ensures Current(entries, run, allowed, k) == Expected(entries, run, allowed, k)
  {
    MeetsRun(entries, run, allowed, k);
    ExpectedRun(entries, run, allowed, k);
  }

  /** The whole loop, started at the first test with every allowed thread
      left, ends with the final entries, writes the list file before each
      test it runs up to the abort and once more at the end, and counts the
      tests run and passed up to the abort. */
  lemma RunMeetsSpec(entries: seq<TestEntry>, run: nat -> RunOutcome, allowed: nat)
    ensures RunFrom(entries, run, 0, allowed) == Expected(entries, run, allowed, 0)
  {
    RunFromMeetsSpec(entries, run, allowed, 0);
    assert Mix(FinalEntries(entries, run, allowed), entries, 0) == entries;
    assert Left(entries, run, allowed, 0) == allowed;
  }

  /** Running test `testIndex`, which is not skipped: a time-out uses up
      one allowed detached thread, or aborts testing when none is left; the
      result becomes the test's status, and on an abort every later test
      that is not skipped becomes UNKNOWN. `next` is the test the loop goes
      on with: the next one, or after an abort the number of tests, so that
      the last iteration only writes the file. */
  method RunTest(testCases: array<TestEntry>, run: nat -> RunOutcome, testIndex: nat, allowed: nat)
      returns (allowedLeft: nat, passed: bool, next: nat)
    requires testIndex < testCases.Length && !IsSkipped(testCases[testIndex])
    modifies testCases
    ensures testIndex < next <= testCases.Length
    ensures RunFrom(old(testCases[..]), run, testIndex, allowed) ==
            Counted(old(testCases[..]), testIndex, passed, RunFrom(testCases[..], run, next, allowedLeft))
  {
    var outcome := run(testIndex);
    allowedLeft, passed := allowed, false;
    var abortTesting := false;
    match outcome {
      case TimeLimit(_) =>
        if allowed == 0 {
          abortTesting := true;
        } else {
          allowedLeft := allowed - 1;
        }
      case RuntimeError(_, _) =>
      case Passed(_) =>
        passed := true;
    }
    ghost var before := testCases[..];
    testCases[testIndex] := TestEntry(testCases[testIndex].name, ResultText(outcome));
    assert testCases[..] == Recorded(before, testIndex, outcome);
    if abortTesting {
      MarkUnknown(testCases, testIndex + 1);
      next := testCases.Length;
    } else {
      next := testIndex + 1;
    }
  }

  /** The main loop. Each test that is not skipped is counted, the list
      file is rewritten showing it RUNNING, and it is run. A last write
      shows the final statuses. */
  method RunLoop(testCases: array<TestEntry>, run: nat -> RunOutcome, allowed: nat)
      returns (writes: seq<string>, ghost steps: seq<nat>, testsTotal: nat, testsPassed: nat)
    modifies testCases
    ensures RunRecord(testCases[..], writes, steps, testsTotal, testsPassed) == RunFrom(old(testCases[..]), run, 0, allowed)
  {
    var n := testCases.Length;
    ghost var goal := RunFrom(testCases[..], run, 0, allowed);
    var allowedLeft := allowed;
    testsTotal, testsPassed := 0, 0;
    writes, steps := [], [];
    var testIndex := 0;
    while true
      invariant testIndex <= n
      invariant Extend(writes, steps, testsTotal, testsPassed, RunFrom(testCases[..], run, testIndex, allowedLeft)) == goal
      decreases n + 1 - testIndex
    {
      if testIndex < n {
        if IsSkipped(testCases[testIndex]) {
          testIndex := testIndex + 1;
          continue;
        }
        testsTotal := testsTotal + 1;
      }

      var content := WriteProgress(testCases[..], testIndex);
      if testIndex == n {
        writes := writes + [content];
        steps := steps + [testIndex];
        break;
      }
      ghost var before, writesBefore, stepsBefore, passedBefore := testCases[..], writes, steps, testsPassed;
      writes := writes + [content];
      steps := steps + [testIndex];

      var passed;
      allowedLeft, passed, testIndex := RunTest(testCases, run, testIndex, allowedLeft);
      if passed {
        testsPassed := testsPassed + 1;
      }
      ExtendCounted(writesBefore, stepsBefore, testsTotal - 1, passedBefore, before, steps[|steps| - 1], passed,
                    RunFrom(testCases[..], run, testIndex, allowedLeft));
    }
  }

  /** The tester: the main loop with `max(2, hardwareConcurrency) - 2`
      detached threads allowed, then the closing line. `writes` are the
      successive contents of the list file and `steps` the test each of
      them was written before (the number of tests for the last). The list
      ends with exactly the final entries. */
  method RunTests(testCases: array<TestEntry>, run: nat -> RunOutcome, hardwareConcurrency: nat)
      returns (writes: seq<string>, ghost steps: seq<nat>, testsTotal: nat, testsPassed: nat, summary: string)
    modifies testCases
    ensures testCases[..] == FinalEntries(old(testCases[..]), run, Allowed(hardwareConcurrency))
    ensures steps == RanBetween(old(testCases[..]), 0, Reached(old(testCases[..]), run, Allowed(hardwareConcurrency)))
                     + [testCases.Length]
    ensures |writes| == |steps|
    ensures forall w :: 0 <= w < |writes| ==> writes[w] == ProgressFile(testCases[..], steps[w])
    ensures testsTotal == |RanBetween(old(testCases[..]), 0, Reached(old(testCases[..]), run, Allowed(hardwareConcurrency)))|
    ensures testsPassed == PassedBetween(old(testCases[..]), run, 0, Reached(old(testCases[..]), run, Allowed(hardwareConcurrency)))
    ensures testsPassed <= testsTotal
    ensures summary == Summary(testsPassed, testsTotal)
  {
    ghost var original := testCases[..];
    var allowed := Allowed(hardwareConcurrency);
    ghost var final := FinalEntries(original, run, allowed);
    ghost var reached := Reached(original, run, allowed);
    RunMeetsSpec(original, run, allowed);
    PassedAtMostRan(original, run, 0, reached);
    writes, steps, testsTotal, testsPassed := RunLoop(testCases, run, allowed);
    summary := Summary(testsPassed, testsTotal);
  }
}
