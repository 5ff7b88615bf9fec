# ACHelper, modelled in Dafny

ACHelper is a desktop helper for competitive programming. It parses a problem
or a whole contest from a judge's web page, keeps each problem of a
*workspace* in its own directory, and writes the tests of each problem there:

- per test, an input file, an expected output file and a program output file, named after the test with extensions from the configuration;
- a *test list file* holding one `name results` line per test.

From templates it generates the files of a build project, expanding a
delimited block once per open problem. A C++ tester, compiled into that
project, reads the test list file, runs every test that is not SKIPPED with a
one-second limit, and rewrites the list file while it works. It marks the
current test RUNNING and the ones ahead PENDING, and records each result as
`OK`, `RE` or `TLE` with the time.

The model has one Dafny module per core source file, plus four shared modules:

| module | holds |
|---|---|
| `Wrappers` | `Option`, `Result` and `Outcome` |
| `Strings` | Java's `split`/`join`, decimal names, substring search, the odd-token substitution, `getline` lines |
| `Configuration` | the loaded properties, as a `map<string, string>` |
| `Sequences` | two sequence facts |

Objects whose fields the source updates are Dafny classes with those fields:

- `TestCase`;
- `Problem`;
- `ProblemSync`, which shares the problem's test list exactly as the Java `ArrayList` is shared;
- `WorkspaceManager`;
- the contest dialog;
- the table-cell renderer;
- the two parse managers' mutable tables.

The directory of a problem on disk is the `files` field of its
`ProblemSync`, a map from file name to content. The tester's test list is an
`array`, rewritten in place as in the C++ code. The generator's template
expansion is specified by a recursive function, `ExpandFrom`. The loop of
`configureFile` is proved against it step by step.

The following are parameters of the operations that use them:

- what a web page or a platform parser yields;
- what the clock shows;
- how a disk operation ends;
- the order in which a directory walk visits the files, and which files the system refuses to delete;
- what a test run does;
- the preferred height Swing computes for a cell;
- `Problem.getValue`.

## Model

| member | source | states |
|---|---|---|
| TestCases.TestCase.constructor | src/ua/alcash/TestCase.java:12-17 | a new test has the given name, empty input, expected and program output, and the single result UNKNOWN |
| TestCases.TestCase.WithData | src/ua/alcash/TestCase.java:19-23 | a sample test holds the given input and expected output, and its results read back as UNKNOWN |
| TestCases.TestCase.SetInput | src/ua/alcash/TestCase.java:28 | the input becomes the value; nothing else changes |
| TestCases.TestCase.SetExpectedOutput | src/ua/alcash/TestCase.java:31 | the expected output becomes the value; nothing else changes |
| TestCases.TestCase.SetProgramOutput | src/ua/alcash/TestCase.java:34 | the program output becomes the value; nothing else changes |
| TestCases.TestCase.SetExecutionResults | src/ua/alcash/TestCase.java:36-37 | the text is split at its first space into one or two tokens, and joining them with a space gives the text back (a round trip) |
| TestCases.TestCase.FlipSkipped | src/ua/alcash/TestCase.java:39-45 | results that are exactly SKIPPED become UNKNOWN, anything else becomes SKIPPED; afterwards there is exactly one token |
| TestCases.FlippedIsOneToken | src/ua/alcash/TestCase.java:39-45 | flipping leaves SKIPPED or UNKNOWN, and leaves UNKNOWN exactly when the test was skipped |
| TestCases.FlipTwice | src/ua/alcash/TestCase.java:39-45 | flipping twice restores a skipped test and turns any other results into UNKNOWN |
| TestCases.TestCase.IsRunning | src/ua/alcash/TestCase.java:47 | true exactly when the results are the single token RUNNING |
| TestCases.RunningOnlyAlone | src/ua/alcash/TestCase.java:37-47 | results set from a text count as running exactly when the text is RUNNING |
| Problems.StripsOneTaskPrefix | src/ua/alcash/Problem.java:73-76 | exactly one leading "Task" is removed from the task class, and an id without it is kept |
| Problems.OutputFileAsWrittenIsInputFile | src/ua/alcash/Problem.java:82-87 | as written, the output file of a problem built from a task is always its input file, even when the task names another output file (finding 2) |
| Problems.OutputFileFollowsOutputStream | src/ua/alcash/Problem.java:82-87 | the corrected output file is the task's output file name; a local-regexp task gets empty file names |
| Problems.SampleTests | src/ua/alcash/Problem.java:91-95 | one sample test per task test, in order, named sample name + (i + 1), holding that test's input and output, with distinct names |
| Problems.Problem.constructor | src/ua/alcash/Problem.java:47-70 | a manual problem has the given ids and names, empty file names, type SINGLE, no tests, manual index 1, and the directory the template gives |
| Problems.Problem.FromTask | src/ua/alcash/Problem.java:72-98 | a parsed problem has the stripped id, the task's names and type, the corrected file names, one sample test per task test, and the template directory |
| Problems.DirectoryOfOneKey | src/ua/alcash/Problem.java:100-121 | a directory template with one %problem_id% between plain parts yields those parts around the problem id |
| Problems.Problem.SetDirectory | src/ua/alcash/Problem.java:100-121 | the directory is the "problem directory" template with its %-keys replaced by platform id, platform name, problem id, problem name or configuration value |
| Problems.Problem.GetFullName | src/ua/alcash/Problem.java:129-132 | the contest name (a null one as "null"), a space, then the problem name when it is present and non-empty, else the problem id |
| Problems.Problem.GetNextTestName | src/ua/alcash/Problem.java:155-160 | returns manual name + k for the first k at or above the counter that no test uses; every index skipped was taken; the counter never decreases |
| Problems.Problem.AddTestCase | src/ua/alcash/Problem.java:164-167 | the test is appended and its name registered; a fresh name keeps names and list consistent |
| Problems.Problem.SwapTestCases | src/ua/alcash/Problem.java:169-171 | the two positions exchange their tests; the set of names and name consistency are preserved |
| Problems.Problem.DeleteTestCase | src/ua/alcash/Problem.java:173-177 | when the disk deletion fails nothing changes; otherwise the test leaves the list and its name leaves the set, keeping them consistent |
| Problems.ListLinesAt | src/ua/alcash/Problem.java:197-199 | the list file has one line per test, the k-th line being the k-th test's name, a space and its results |
| Synchronization.ProblemSync.constructor | src/ua/alcash/filesystem/ProblemSync.java:40-49 | the directory is the workspace directory and the template with its @-keys substituted (names only, problem_dir still null), joined as `Paths.get` joins them; the name set is that of the shared list; test set marked changed |
| Synchronization.SubstituteTokens | src/ua/alcash/filesystem/ProblemSync.java:183-189 | the loop replaces every odd @-token and joins the tokens; text without @ is unchanged |
| Synchronization.ProblemSync.SubstituteKeys | src/ua/alcash/filesystem/ProblemSync.java:183-189 | odd @-tokens are replaced, problem_dir by the sync's directory and any other key by the problem's value; text without @ passes through |
| Synchronization.ProblemDirKey | src/ua/alcash/filesystem/ProblemSync.java:183-189 | "@problem_dir@" between plain parts becomes the directory |
| Synchronization.ProblemSync.Initialize | src/ua/alcash/filesystem/ProblemSync.java:51-58 | every test gets its files, created in list order, and then the list file is written |
| Synchronization.ProblemSync.CreateAllTestFiles | src/ua/alcash/filesystem/ProblemSync.java:54-56 | the loop creates the files of every test in list order |
| Synchronization.AllTestFilesPresent | src/ua/alcash/filesystem/ProblemSync.java:51-58 | after initialisation every test has its input, expected output and program output file, and no file was lost |
| Synchronization.ProblemSync.GetNextTestName | src/ua/alcash/filesystem/ProblemSync.java:77-82 | the first manual name, from the counter on, that no test of the sync uses |
| Synchronization.ProblemSync.AddTestCase | src/ua/alcash/filesystem/ProblemSync.java:84-92 | the test set is marked changed, the test appended and its name registered, its files created, and the list file rewritten |
| Synchronization.ProblemSync.TestInputChanged | src/ua/alcash/filesystem/ProblemSync.java:94-98 | only the test's input file changes, to its current input |
| Synchronization.ProblemSync.TestAnswerChanged | src/ua/alcash/filesystem/ProblemSync.java:100-104 | only the test's expected output file changes, to its current expected output |
| Synchronization.ProblemSync.CreateTestCaseFiles | src/ua/alcash/filesystem/ProblemSync.java:106-113 | input and expected output written; the program output file created empty only when missing |
| Synchronization.TestFilesHoldContent | src/ua/alcash/filesystem/ProblemSync.java:106-113 | after creation, the input file holds the input, the expected file holds the expected output, and the program output file exists with its old content (empty when new); other files are untouched |
| Synchronization.DistinctFileNames | src/ua/alcash/filesystem/ProblemSync.java:63-65 | different extensions give a test different file names |
| Synchronization.ProblemSync.SetTestSolvedAsWritten | src/ua/alcash/filesystem/ProblemSync.java:115-122 | as written: the expected output in memory becomes the program output, and the copy runs without REPLACE_EXISTING (finding 1) |
| Synchronization.CopyWithoutReplaceFailsAfterCreate | src/ua/alcash/filesystem/ProblemSync.java:119-120 | once a test's files exist, a copy without REPLACE_EXISTING fails with FileAlreadyExists and leaves the disk unchanged |
| Synchronization.ProblemSync.SetTestSolved | src/ua/alcash/filesystem/ProblemSync.java:115-122 | corrected: memory and disk agree afterwards, because the expected output file is replaced by the program output |
| Synchronization.CopyReplacing | src/ua/alcash/filesystem/ProblemSync.java:119-120 | a replacing copy of an existing file succeeds and gives the target the source's content |
| Synchronization.ProblemSync.FlipTestSkipped | src/ua/alcash/filesystem/ProblemSync.java:124-128 | the test's SKIPPED mark is flipped and only the list file is rewritten |
| Synchronization.ProblemSync.SwapTestCases | src/ua/alcash/filesystem/ProblemSync.java:130-135 | the two tests exchange places; the names and their consistency are preserved; only the list file is rewritten |
| Synchronization.ProblemSync.DeleteTestCase | src/ua/alcash/filesystem/ProblemSync.java:137-147 | marks the test set changed and deletes the three files in order, stopping at the first failure; after a full success the test and its name are removed and the list file rewritten |
| Synchronization.ProblemSync.DeleteTestFiles | src/ua/alcash/filesystem/ProblemSync.java:140-142 | the three deletions, in order, each failing on a missing file |
| Synchronization.DeletePathsRemoves | src/ua/alcash/filesystem/ProblemSync.java:140-142 | deleting succeeds exactly when every path exists and none repeats, and then removes exactly those paths; a failure names a missing one of them |
| Synchronization.ProblemSync.DropTestCase | src/ua/alcash/filesystem/ProblemSync.java:143-145 | the test leaves the shared list and its name the set, and the list file is rewritten |
| Synchronization.ProblemSync.DeleteFile | src/ua/alcash/filesystem/ProblemSync.java:140 | Files.delete removes an existing file and fails on a missing one |
| Synchronization.ProblemSync.TestsListChanged | src/ua/alcash/filesystem/ProblemSync.java:149-155 | only the list file changes: one line per test, in list order |
| Synchronization.ProblemSync.DeleteFromDisk | src/ua/alcash/filesystem/ProblemSync.java:167-181 | the files are deleted in walk order until one cannot be: the result and the directory left are exactly those of WalkDelete, so the files deleted before a failure stay deleted |
| Synchronization.WalkOnlyDeletes | src/ua/alcash/filesystem/ProblemSync.java:167-181 | a walk only removes files and changes no content; a file refused as locked is still there |
| Synchronization.WalkOverAllFiles | src/ua/alcash/filesystem/ProblemSync.java:167-181 | a walk over each file of the directory once succeeds exactly when none is locked, and then leaves the directory empty |
| Synchronization.ProblemSync.ProjectRegenerationRequired | src/ua/alcash/filesystem/ProblemSync.java:191-193 | true exactly when the problem or the test set changed |
| Synchronization.ProblemSync.MarkUnchanged | src/ua/alcash/filesystem/ProblemSync.java:195-198 | afterwards no regeneration is required |
| Generation.BlockEnd | src/ua/alcash/filesystem/Generator.java:48-51 | the scan ends within the template |
| Generation.BlockEndIsNextDelimiter | src/ua/alcash/filesystem/Generator.java:48-51 | the block end is the next delimiter line, or the template's end when none follows |
| Generation.FindBlockEnd | src/ua/alcash/filesystem/Generator.java:48-51 | the scan loop stops at the block end |
| Generation.EmitBlock | src/ua/alcash/filesystem/Generator.java:52-56 | the block's lines are emitted once per problem, in problem order, each substituted with that problem's keys |
| Generation.EmitCopy | src/ua/alcash/filesystem/Generator.java:53-55 | one problem's copy of the block, line by line |
| Generation.CopyAt | src/ua/alcash/filesystem/Generator.java:54 | the k-th copy substitutes the k-th problem's keys (names not only) |
| Generation.BlockLinesLength | src/ua/alcash/filesystem/Generator.java:52-56 | a block emits its length times the number of problems lines |
| Generation.BlockLineAt | src/ua/alcash/filesystem/Generator.java:52-56 | the k-th problem's copy of block line j is at k·length + j |
| Generation.SubstituteConfigKeys | src/ua/alcash/filesystem/Generator.java:58-64 | a plain line has its odd @-tokens replaced by configuration values |
| Generation.ExpandLine | src/ua/alcash/filesystem/Generator.java:45-65 | one step of the template loop moves forward, and its output followed by the rest's expansion is the expansion from that line |
| Generation.ExpandBlockAt | src/ua/alcash/filesystem/Generator.java:46-57 | the block branch: the output for the whole block, then the loop goes on after its closing delimiter |
| Generation.ExpandWithoutBlocks | src/ua/alcash/filesystem/Generator.java:58-64 | a template without delimiter lines is copied line by line through the plain substitution |
| Generation.OneBlock | src/ua/alcash/filesystem/Generator.java:45-65 | a template with one closed block yields: the plain part before, the block once per problem, then the plain part after |
| Generation.LineCounts | src/ua/alcash/filesystem/Generator.java:45-65 | a count of the lines outside and inside blocks, scanned independently of the expansion; the two together are at most the lines scanned |
| Generation.ExpandLengthFrom | src/ua/alcash/filesystem/Generator.java:45-65 | from any line on, the output has one line per line outside blocks and, per problem, one per line inside blocks |
| Generation.ExpandLength | src/ua/alcash/filesystem/Generator.java:45-65 | every template, with any number of blocks and a last block closed or not, yields that many lines; delimiter lines yield none |
| Generation.OneBlockCounts | src/ua/alcash/filesystem/Generator.java:45-65 | in a template with one closed block, the count outside is the plain parts' length and the count inside the body's |
| Generation.FileName | src/ua/alcash/filesystem/Generator.java:41 | the output name is a suffix of the template path without '/' |
| Generation.Configured | src/ua/alcash/filesystem/Generator.java:37-70 | a template that can be read yields a file named after it; one that cannot yields the "file generation failed" message |
| Generation.ExpandTemplate | src/ua/alcash/filesystem/Generator.java:45-65 | the template loop produces exactly the generator's expansion: plain lines substituted from the configuration, each block once per problem |
| Generation.ConfigureFile | src/ua/alcash/filesystem/Generator.java:37-70 | the result is exactly what Configured specifies: the expanded template under its file name, or the failure message for an unreadable template |
| Generation.RegenerationFlag | src/ua/alcash/filesystem/Generator.java:21-25 | the project is regenerated exactly when forced or when some problem requires it |
| Generation.ProjectOnlyWhenRegenerating | src/ua/alcash/filesystem/Generator.java:26-31 | the files template and command always come first; the project template and command only when regenerating |
| Generation.ConfigureAll | src/ua/alcash/filesystem/Generator.java:26-31 | the templates processed and commands run follow Planned, stopping at the first failure |
| Generation.MarkAllUnchanged | src/ua/alcash/filesystem/Generator.java:32-34 | every problem is marked unchanged; nothing else about them changes |
| Generation.Generate | src/ua/alcash/filesystem/Generator.java:20-35 | the output follows Planned with the regeneration flag; after success every problem is unchanged; after a failure no problem is touched |
| Parsing.TablesAgree | src/ua/alcash/parsing/ParseManager.java:25-66 | every platform with a parser has a URL fragment; every contest platform has a parser |
| Parsing.ParseManager.constructor | src/ua/alcash/parsing/ParseManager.java:23 | the name table starts empty |
| Parsing.ParseManager.Configure | src/ua/alcash/parsing/ParseManager.java:68-76 | the table holds exactly the platforms with a parser and a configured name, each with that name |
| Parsing.ParseManager.GetPlatformName | src/ua/alcash/parsing/ParseManager.java:78 | the configured name, or null for a platform that is not configured |
| Parsing.ParseManager.GetPlatformIds | src/ua/alcash/parsing/ParseManager.java:80-86 | every configured platform exactly once |
| Parsing.UniqueMatch | src/ua/alcash/parsing/ParseManager.java:88-100 | the result is the one platform whose fragment the URL contains; "Unrecognized platform." exactly when none matches; "Ambiguous platform." exactly when two do |
| Parsing.GetPlatformByUrl | src/ua/alcash/parsing/ParseManager.java:88-100 | UniqueMatch over the parse manager's fragment table |
| Parsing.ParseManager.ParseProblemsFromHtml | src/ua/alcash/parsing/ParseManager.java:103-118 | an unconfigured platform and a page without tasks are refused with their messages; otherwise one problem per task, in order |
| Parsing.ProblemsFromTasks | src/ua/alcash/parsing/ParseManager.java:113-117 | one fresh problem per task, in order, for the platform |
| Parsing.ParseManager.ParseProblemByUrl | src/ua/alcash/parsing/ParseManager.java:121-129 | the URL's platform errors first, then "Unable to get web page content." for a missing page, "Unsupported platform." for a matching platform without a name, "Parsing failed." for a page without tasks; a success exactly when the one matching platform is configured and its page has tasks, one fresh problem per task |
| Parsing.FirstOf | src/ua/alcash/parsing/ParseManager.java:165 | the first position from a start that holds one of the characters |
| Parsing.ContestIdWithoutCut | src/ua/alcash/parsing/ParseManager.java:165 | text without $ ? # / \ is the contest id unchanged |
| Parsing.ContestIdSingleLine | src/ua/alcash/parsing/ParseManager.java:165 | on one line, the contest id is the longest prefix without a cut character |
| Parsing.ContestIdIdempotent | src/ua/alcash/parsing/ParseManager.java:165 | cutting a contest id again changes nothing |
| Parsing.ContestOfPlatformCases | src/ua/alcash/parsing/ParseManager.java:156-165 | unsupported platform and missing contest URL give their messages; otherwise the id is cut from after the first occurrence of the contest URL |
| Parsing.ContestOfUrl | src/ua/alcash/parsing/ParseManager.java:155-165 | the URL checks of contest parsing, in source order, each error with its message |
| Parsing.ParseManager.ParseContestByUrl | src/ua/alcash/parsing/ParseManager.java:153-170 | errors as ContestOfUrl gives them; a success exactly when one platform matches and its contest URL checks pass, with one problem per task the contest parser delivers for the cut contest id |
| UtilParsing.PlatformTable.constructor | src/ua/alcash/util/ParseManager.java:20 | the table starts empty |
| UtilParsing.PlatformTable.Configure | src/ua/alcash/util/ParseManager.java:44-52 | the keys are exactly the configured names of the platforms with a parser, each mapping to a platform configured with that name |
| UtilParsing.PlatformTable.GetPlatformId | src/ua/alcash/util/ParseManager.java:54-56 | the recorded id, or null for an unknown name |
| UtilParsing.PlatformTable.GetPlatformNames | src/ua/alcash/util/ParseManager.java:58-64 | every name of the table exactly once |
| UtilParsing.PlatformTable.GetContestPlatformNames | src/ua/alcash/util/ParseManager.java:66-74 | exactly the names whose platform can parse contests, each once |
| UtilParsing.PlatformTable.ParseProblem | src/ua/alcash/util/ParseManager.java:76-88 | a missing page, an unknown name (the null parser crashes) and a page without tasks each fail; otherwise the first task becomes a problem whose platform id is the name |
| Workspace.WorkspaceManager.constructor | src/ua/alcash/filesystem/WorkspaceManager.java:22-50 | a workspace with its directory and configuration and no open problems |
| Workspace.WorkspaceManager.FindDirectory | src/ua/alcash/filesystem/WorkspaceManager.java:87-91 | the scan finds an open problem with the directory exactly when one exists |
| Workspace.WorkspaceManager.AddProblem | src/ua/alcash/filesystem/WorkspaceManager.java:84-101 | the new directory is the workspace joined with the substituted template; a duplicate directory is refused with its message and nothing changes; otherwise the new sync's files are created and it is appended with a fresh watch key at the same index, keeping directories distinct |
| Workspace.WorkspaceManager.Register | src/ua/alcash/filesystem/WorkspaceManager.java:93-99 | the sync and a fresh key are appended at the same index |
| Workspace.WorkspaceManager.CloseProblem | src/ua/alcash/filesystem/WorkspaceManager.java:103-117 | with delete, the directory is walked first, the files deleted before a failure staying deleted, and the failure reported; either way the problem and its key leave both lists at the index and the key is cancelled |
| Workspace.WorkspaceManager.CloseFront | src/ua/alcash/filesystem/WorkspaceManager.java:120-122 | one round of the close loop: the first problem closed, its files walked when deleting, its key cancelled and its message added; every other problem's files and every earlier cancelled key stay as they were |
| Workspace.CloseErrors | src/ua/alcash/filesystem/WorkspaceManager.java:119-123 | at most one message per problem, and none without delete |
| Workspace.CloseErrorsOfFullWalks | src/ua/alcash/filesystem/WorkspaceManager.java:119-123 | when every walk covers its directory once, closing with delete reports nothing exactly when no walk meets a locked file |
| Workspace.WorkspaceManager.CloseAllProblems | src/ua/alcash/filesystem/WorkspaceManager.java:119-123 | every problem closed from the front and every key cancelled; the messages are those of CloseErrors, in problem order; each problem's files are what its walk leaves when deleting and unchanged otherwise |
| Workspace.WorkspaceManager.SelectWorkspace | src/ua/alcash/filesystem/WorkspaceManager.java:57-72 | no folder gives CLOSED and an invalid configuration NO, each leaving problems, keys and files as they were; YES closes every problem without deleting any file and switches directory and configuration |
| Workspace.WatchKey.PollEvents | src/ua/alcash/filesystem/WorkspaceManager.java:142 | the pending events are handed over and forgotten |
| Workspace.WatchKey.Cancel | src/ua/alcash/filesystem/WorkspaceManager.java:114 | the key is cancelled |
| Workspace.KeyIndex | src/ua/alcash/filesystem/WorkspaceManager.java:138-140 | the first index holding the key, or the list length exactly when the key is absent |
| Workspace.Delivered | src/ua/alcash/filesystem/WorkspaceManager.java:142-148 | exactly the events that are not OVERFLOW reach the problem |
| Workspace.DeliveredWithoutOverflow | src/ua/alcash/filesystem/WorkspaceManager.java:142-148 | a batch without OVERFLOW is delivered whole |
| Workspace.DeliveredConcat | src/ua/alcash/filesystem/WorkspaceManager.java:142-148 | delivering two batches one after the other is delivering their concatenation |
| Workspace.WorkspaceManager.Dispatch | src/ua/alcash/filesystem/WorkspaceManager.java:137-149 | an unknown key dispatches nothing; a known key hands its events, without OVERFLOW and in order, to the problem at its index |
| NewContest.NewContestDialog.constructor | src/ua/alcash/ui/NewContestDialog.java:23-40 | spinners at 0:00 and the dialog hidden |
| NewContest.QuarterUp | src/ua/alcash/ui/NewContestDialog.java:47 | the smallest multiple of 15 not below the minute |
| NewContest.ProposedTime | src/ua/alcash/ui/NewContestDialog.java:45-51 | a valid hour and a quarter minute |
| NewContest.ProposedIsNextQuarter | src/ua/alcash/ui/NewContestDialog.java:45-51 | the proposal is the first quarter hour at or after the clock, counting round midnight |
| NewContest.NewContestDialog.Show | src/ua/alcash/ui/NewContestDialog.java:42-57 | while scheduling is possible the spinners show the proposal, otherwise the scheduled time stays; the dialog becomes visible |
| NewContest.NewContestDialog.ToggleButtons | src/ua/alcash/ui/NewContestDialog.java:79-85 | enabled makes the dialog idle (all but abort); disabled makes it busy (abort only) |
| NewContest.NewContestDialog.Schedule | src/ua/alcash/ui/NewContestDialog.java:87-90 | "Scheduled..." and busy |
| NewContest.NewContestDialog.StartParsing | src/ua/alcash/ui/NewContestDialog.java:92-95 | "Parsing..." and busy |
| NewContest.NewContestDialog.Abort | src/ua/alcash/ui/NewContestDialog.java:97-104 | a scheduled parse gets "Schedule" back, anything else "Parse"; the dialog is idle again |
| NewContest.NewContestDialog.CloseDialog | src/ua/alcash/ui/NewContestDialog.java:106-111 | a busy dialog is aborted first; the dialog is hidden either way |
| CellRenderer.Shorten | src/ua/alcash/ui/MultilineTableCellRenderer.java:24-30 | up to 150 characters is shown as is; longer text becomes its first 147 characters and "..." |
| CellRenderer.ShortenIdempotent | src/ua/alcash/ui/MultilineTableCellRenderer.java:24-30 | the shown text has at most 150 characters, and shortening it again changes nothing |
| CellRenderer.MultilineTableCellRenderer.constructor | src/ua/alcash/ui/MultilineTableCellRenderer.java:15-22 | no heights recorded |
| CellRenderer.MultilineTableCellRenderer.Render | src/ua/alcash/ui/MultilineTableCellRenderer.java:53-58 | a null value shows empty and any other value shortened; then the row height is adjusted |
| CellRenderer.MultilineTableCellRenderer.AdjustRowHeight | src/ua/alcash/ui/MultilineTableCellRenderer.java:65-91 | the table grows to hold the cell, records its height with all other heights unchanged, and the row becomes the tallest recorded cell; the table is told only on a change |
| CellRenderer.MultilineTableCellRenderer.GrowRows | src/ua/alcash/ui/MultilineTableCellRenderer.java:74-76 | empty rows are added until the row exists; existing rows are kept |
| CellRenderer.PadColumns | src/ua/alcash/ui/MultilineTableCellRenderer.java:78-80 | zeros are added until the column exists; existing heights are kept |
| CellRenderer.MaxHeight | src/ua/alcash/ui/MultilineTableCellRenderer.java:82-87 | the loop computes the maximum of prefH and the row's heights |
| CellRenderer.MaxOf | src/ua/alcash/ui/MultilineTableCellRenderer.java:82-87 | an upper bound of all values that is one of them |
| CellRenderer.Table.SetRowHeight | src/ua/alcash/ui/MultilineTableCellRenderer.java:89 | the row gets the height and the call is recorded |
| Tester.StripExe | templates/cpp/tester.cpp:27-30 | a trailing ".exe" is removed and any other path kept |
| Tester.StripExeAppended | templates/cpp/tester.cpp:27-30 | stripping undoes appending ".exe" |
| Tester.FindLastOf | templates/cpp/tester.cpp:35 | the last separator position, or npos exactly when there is none |
| Tester.TestsDirectory | templates/cpp/tester.cpp:35 | the directory is the prefix through the last separator, and no separator follows it |
| Tester.ReadTestCases | templates/cpp/tester.cpp:38-47 | one entry per line, in order: the name up to the first space and the status after it |
| Tester.ReadEntriesWellFormed | templates/cpp/tester.cpp:41-46 | every entry read has a name without spaces or line breaks |
| Tester.ParseWrittenLine | templates/cpp/tester.cpp:43-45 | a line written as name, space, status reads back as that entry |
| Tester.ListFileReadsAsEntries | src/ua/alcash/filesystem/ProblemSync.java:149-155 | the list file the IDE writes reads back, test by test, as name and results |
| Tester.SkippedExactlyWhenMarked | templates/cpp/tester.cpp:48-50 | the tester skips a test exactly when the IDE marked it SKIPPED |
| Tester.WriteProgress | templates/cpp/tester.cpp:76-87 | the file written before a test: statuses before it, RUNNING for it, PENDING after |
| Tester.ProgressFileReadsBack | templates/cpp/tester.cpp:76-87 | a progress file reads back as the same tests with their progress statuses, and after the end as the list itself |
| Tester.SameProgress | templates/cpp/tester.cpp:76-87 | the progress file depends only on names and on the statuses before the current test |
| Tester.Seconds | templates/cpp/tester.cpp:108-112 | the printed time holds no space or line break |
| Tester.VerdictOfOutcome | templates/cpp/tester.cpp:113-155 | the verdict is TLE, RE or OK, and it is OK exactly when the test passed |
| Tester.AbortFrom | templates/cpp/tester.cpp:113-121 | the first test at which a time-out finds no detached thread left, or the end |
| Tester.AbortExactlyOnTooManyTimeouts | templates/cpp/tester.cpp:113-121 | testing aborts exactly when more tests time out than threads are allowed |
| Tester.TimeoutsBounded | templates/cpp/tester.cpp:113-121 | before the abort, no more tests time out than allowed |
| Tester.MarkUnknown | templates/cpp/tester.cpp:157-164 | after the abort every test that is not skipped becomes UNKNOWN; skipped tests keep their entries |
| Tester.FinalAfterAbort | templates/cpp/tester.cpp:157-164 | after the abort, a skipped test keeps its entry and any other test is UNKNOWN |
| Tester.NoProgressLeft | templates/cpp/tester.cpp:65-165 | no test is left RUNNING or PENDING when testing ends |
| Tester.FinalFileReadsBack | templates/cpp/tester.cpp:76-88 | the last list file reads back as the final entries |
| Tester.RanBetweenExactly | templates/cpp/tester.cpp:65-74 | the tests run are exactly those not skipped, in increasing order |
| Tester.PassedAtMostRan | templates/cpp/tester.cpp:147-148 | no more tests pass than are run |
| Tester.Summary | templates/cpp/tester.cpp:166-172 | "All tests passed:" exactly when every test run passed |
| Tester.RunTest | templates/cpp/tester.cpp:90-164 | one test run: the result becomes its status; a time-out uses a thread or aborts; the loop resumes where the specification says |
| Tester.RunLoop | templates/cpp/tester.cpp:63-165 | the loop's final list, its writes, and the run and passed counts equal those of the recursive RunFrom |
| Tester.RunFromMeetsSpec | templates/cpp/tester.cpp:65-165 | from any test up to the abort, the loop produces what the specification Expected says |
| Tester.RunMeetsSpec | templates/cpp/tester.cpp:63-165 | the whole loop produces the final entries, the progress writes and the counts of the specification |
| Tester.RunTests | templates/cpp/tester.cpp:22-175 | the list ends as the final entries; a progress file is written before each test run and once at the end; the counts are those of the tests run and passed, with passed ≤ run; the summary line follows |
| Strings.SplitFirst | src/ua/alcash/TestCase.java:37 | split(" ", 2): one or two pieces, the first without a space, joining them gives the text back |
| Strings.JoinSplitAll | src/ua/alcash/filesystem/ProblemSync.java:184-188 | joining the split pieces with the separator restores the text |
| Strings.FirstFreeIndex | src/ua/alcash/filesystem/ProblemSync.java:78-80 | the first index from the start whose numbered name is free; every earlier one is taken |
| Strings.ReplaceOddTokens | src/ua/alcash/filesystem/ProblemSync.java:185-187 | every odd token replaced, even tokens kept |
| Strings.SubstituteOneKey | src/ua/alcash/filesystem/ProblemSync.java:183-189 | one marked key between plain texts becomes its value |
| Strings.SubstituteWithoutMarker | src/ua/alcash/filesystem/ProblemSync.java:183-189 | text without the marker is unchanged |
| Strings.ReadUnlines | src/ua/alcash/filesystem/ProblemSync.java:152-154 | lines written one per line read back as the same lines |
| Strings.CollapseSlashes | src/ua/alcash/filesystem/ProblemSync.java:42-43 | no two '/' in a row remain, and the first and last characters are kept |
| Strings.NormalizePath | src/ua/alcash/filesystem/ProblemSync.java:42-43 | the result is a normal Unix path: no two '/' in a row and no '/' at the end unless it is "/" |
| Strings.JoinPath | src/ua/alcash/filesystem/ProblemSync.java:42-43 | `Paths.get(first, more).toString()` is always a normal path |
| Strings.CollapseWithoutDoubleSlash | src/ua/alcash/filesystem/ProblemSync.java:42-43 | a text without two '/' in a row is left as it is |
| Strings.NormalizeNormal | src/ua/alcash/filesystem/ProblemSync.java:42-43 | a normal path is its own normalisation, so normalising twice changes nothing |
| Strings.JoinNormalParts | src/ua/alcash/filesystem/ProblemSync.java:42-43 | two normal parts, the second relative, join with exactly one '/' |
| Strings.JoinEmptyRelative | src/ua/alcash/filesystem/ProblemSync.java:42-43 | an empty relative part leaves the directory: "/w" and "" give "/w" |
| Strings.JoinDropsTrailingSlash | src/ua/alcash/filesystem/ProblemSync.java:42-43 | a trailing '/' is dropped: "/w" and "A/" give "/w/A" |
| Strings.JoinCollapsesSlashes | src/ua/alcash/filesystem/ProblemSync.java:42-43 | a directory ending in '/' gives no double '/': "/w/" and "A" give "/w/A" |
| Strings.IndexOf | src/ua/alcash/parsing/ParseManager.java:160 | the first occurrence, or none exactly when the text never occurs |
| Strings.ParseNatToString | src/ua/alcash/Problem.java:156-159 | the decimal text of a number reads back as that number |
| Strings.NumberedNamesDistinct | src/ua/alcash/Problem.java:92 | different numbers give different names under one prefix |

## Left out

- Threads and locks are not modelled. The watcher thread, the `synchronized` blocks, and the background thread of `updateWorkspace` run sequentially here.
- The tester's detached threads and its one-second wait are outcomes of `run`.
- `ProblemSync.fileChanged` is not modelled. It is called from `WorkspaceManager.processEvents` but is not part of the files modelled; `Dispatch` returns the events it would receive.
- `WorkspaceManager.processEvents`: `key.reset()` and the blocking `take()` are not modelled.
- `WorkspaceManager.stop`, `configure` and the Chrome listener are not modelled.
- The constructor's retry loop over `selectWorkspace` is not modelled: the constructor takes the loaded configuration.
- Workspace.WorkspaceManager.AddProblem: I/O failures of `initialize` and of the watch registration are not modelled. The model registers first and creates the files afterwards. This reaches the same final state, because each step touches different state.
- `Configuration.load` and the XML format are not modelled: a configuration is a map.
- `Generator.executeCommand` is not modelled, and neither are the process it starts or its printing. `Generate` returns the commands it would run.
- Templates are a map from path to lines, and generated files are returned rather than written.
- Generation.FileName: a path ending in '/' gives an empty name here, whereas `Path.getFileName` drops trailing separators first; configured template paths name files, so they do not end in '/'.
- Generation.GenerationFailed: the message of the underlying I/O error is taken to be the template path, as `NoSuchFileException` reports it. Other read errors are not distinguished.
- Generation.Generate: requires both template keys to be configured. The source fails with a `NullPointerException` when one is missing.
- Problems.Problem.constructor: requires "problem directory" to be configured. The source fails with a `NullPointerException` when it is missing.
- Problems.Problem.FromTask: requires "problem directory" to be configured, for the same reason.
- Synchronization.ProblemSync.constructor: requires "problem directory" to be configured. The source fails with a `NullPointerException` at line 43 when it is missing.
- Synchronization.ProblemSync.constructor: also requires "test list file", because the model takes the values of the static `ProblemSync.configure` when a sync is built. In the source `configure` reads that key (ProblemSync.java:62), and a missing one fails only later, when `testsListChanged` first writes the list file.
- Synchronization.ProblemSync.DeleteFromDisk: the order of `walkFileTree` and the files the system refuses to delete are parameters. The directory is a flat map, so subdirectories and the removal of the emptied directory by `postVisitDirectory` are not modelled.
- Workspace.WorkspaceManager.CloseAllProblems: requires the class invariant `Valid()` (open problems have distinct directories and one watch key each). The constructor establishes it and every method keeps it; the source relies on the same fact.
- Workspace.WorkspaceManager.SelectWorkspace: requires `Valid()`, for the same reason.
- Paths follow Unix conventions: '/' is the only separator, Windows paths are not modelled, and neither is the check that rejects a NUL character in a path.
- Strings.ReadUnlines: lines are ended by "\n", the `System.lineSeparator()` of Unix systems; the "\r\n" of Windows is not modelled.
- `Problem.getValue` and `Problem.projectRegenerationRequired`/`markUnchanged` are not modelled. They are not in the files modelled; they appear as the `getValue` parameter and the `problemChanged` flag.
- `Problem.writeToDisk` is not modelled. Its check for RUNNING/PENDING lines compares strings with `==`, which is reference equality in Java. The list file it writes is the one `ListFileContent` models.
- The time limit is not modelled: `double` values and `Double.parseDouble` are left out.
- Test outputs are strings, not bytes. Java's UTF-16 `char` and C++ bytes are both modelled as Dafny `char`.
- The web page download and the platform HTML and contest parsers are not modelled. What they yield is a parameter.
- Table colours, fonts, borders and focus are not modelled.
- The column width is not modelled, and neither is the Swing text layout that yields the preferred height.
- `getRowHeight` for a row outside the table is not modelled: the model requires the row to exist.
- The dialog's form layout, focus, shortcuts and window placement are not modelled.
- The constructor's initial button labels and enabled flags come from the form layout and are parameters.
- Tester output is not modelled: the console lines, their colours, and `std::endl` flushing.
- Tester run outcomes other than the three are not modelled. A solution that throws something other than a `std::exception` is rethrown uncaught and ends the tester; the model has only `std::exception` runtime errors.
- Elapsed times are whole milliseconds. The model does not capture the rounding of the `double` division when it is printed.
- The tester's `#if false` debug branch is not modelled.
- The tester's read of the path file is not modelled: the list file name is an input.
- The `util` parse manager's `ContestScheduler` and `ChromeListener` callers are not part of this model.

## Findings

| source | as written | input that shows it | evidently intended | confidence | as-written member | corrected member |
|---|---|---|---|---|---|---|
| src/ua/alcash/filesystem/ProblemSync.java:119-120 | `Files.copy` without `REPLACE_EXISTING` copies the program output over the expected output | any test once `createTestCaseFiles` has run: the expected output file then exists, so the copy throws `FileAlreadyExistsException`, while the expected output in memory was already changed | the expected output file is replaced by the program output | not executed | Synchronization.ProblemSync.SetTestSolvedAsWritten, Synchronization.CopyWithoutReplaceFailsAfterCreate | Synchronization.ProblemSync.SetTestSolved |
| src/ua/alcash/Problem.java:84 | `outputFile = task.input.fileName` | a task with input file "a.in" and output file "a.out" gets output file "a.in" | `outputFile = task.output.fileName` | not executed | Problems.OutputFileAsWrittenIsInputFile | Problems.OutputFileFollowsOutputStream, Problems.Problem.FromTask |
