/**
 * One test of a problem: its input, the expected and the actual program
 * output, and the execution-result tokens that the external test runner
 * writes into the test list file ("UNKNOWN", "SKIPPED", "RUNNING", or a
 * verdict such as "OK 0.015").
 */
module TestCases {
  import opened Strings

  const UNKNOWN_KEY := "UNKNOWN"
  const SKIPPED_KEY := "SKIPPED"
  const RUNNING_KEY := "RUNNING"

  /** The result tokens `flipSkipped` leaves behind: a skipped test becomes
      unknown, anything else becomes skipped. */
  function Flipped(results: seq<string>): seq<string>
  {
    if |results| == 1 && results[0] == SKIPPED_KEY then [UNKNOWN_KEY] else [SKIPPED_KEY]
  }

  /** The results say the test is being run right now. */
  predicate IsRunningResults(results: seq<string>)
  {
    |results| == 1 && results[0] == RUNNING_KEY
  }

  /** Flipping always leaves one token, SKIPPED or UNKNOWN, and it leaves
      UNKNOWN exactly when the test was skipped before. */
  lemma FlippedIsOneToken(results: seq<string>)
    ensures Flipped(results) == [SKIPPED_KEY] || Flipped(results) == [UNKNOWN_KEY]
    ensures Flipped(results) == [UNKNOWN_KEY] <==> results == [SKIPPED_KEY]
  {
    if |results| == 1 && results[0] == SKIPPED_KEY {
      assert results == [SKIPPED_KEY];
    }
  }

  /** Two flips give a skipped test back its SKIPPED mark; any other test
      loses its previous results and ends up UNKNOWN. */
  lemma FlipTwice(results: seq<string>)
    ensures Flipped(Flipped(results)) == if results == [SKIPPED_KEY] then [SKIPPED_KEY] else [UNKNOWN_KEY]
  {
    FlippedIsOneToken(results);
  }

  /** Results set from a text count as running only when the text is the
      bare word RUNNING: "RUNNING x" is split into two tokens. */
  lemma RunningOnlyAlone(value: string)
    ensures IsRunningResults(SplitFirst(value, ' ')) <==> value == RUNNING_KEY
  {
    if ' ' !in value {
      assert SplitFirst(value, ' ') == [value];
    } else {
      assert value != RUNNING_KEY by { assert ' ' !in RUNNING_KEY; }
    }
  }

  class TestCase {
    /** The name never changes: the class has no setter for it. */
    const name: string
    var input: string
    var expectedOutput: string
    var programOutput: string
    var executionResults: seq<string>

    /** `TestCase(name)`: empty texts and the single result token UNKNOWN. */
    constructor (name: string)
      ensures this.name == name
      ensures input == "" && expectedOutput == "" && programOutput == ""
      ensures executionResults == [UNKNOWN_KEY]
      ensures forall d :: GetExecutionResults(d) == UNKNOWN_KEY
    {
      this.name := name;
      input, expectedOutput, programOutput := "", "", "";
      executionResults := [UNKNOWN_KEY];
    }

    /** `TestCase(name, input, output)`: a sample test with its answer. */
    constructor WithData(name: string, input: string, output: string)
      ensures this.name == name
      ensures this.input == input && expectedOutput == output && programOutput == ""
      ensures executionResults == [UNKNOWN_KEY]
      ensures forall d :: GetExecutionResults(d) == UNKNOWN_KEY
    {
      this.name := name;
      this.input, expectedOutput, programOutput := input, output, "";
      executionResults := [UNKNOWN_KEY];
    }

    /** The result tokens joined with `delimiter`. */
    function GetExecutionResults(delimiter: string): string
      reads this
    {
      Join(delimiter, executionResults)
    }

    method SetInput(value: string)
      modifies this`input
      ensures input == value
    {
      input := value;
    }

    method SetExpectedOutput(value: string)
      modifies this`expectedOutput
      ensures expectedOutput == value
    {
      expectedOutput := value;
    }

    method SetProgramOutput(value: string)
      modifies this`programOutput
      ensures programOutput == value
    {
      programOutput := value;
    }

    /** Stores the text split at its first space; reading the results back
        with a single-space delimiter gives the text unchanged. */
    method SetExecutionResults(value: string)
      modifies this`executionResults
      ensures executionResults == SplitFirst(value, ' ')
      ensures 1 <= |executionResults| <= 2
      ensures GetExecutionResults(" ") == value
    {
      executionResults := SplitFirst(value, ' ');
    }

    /** A skipped test gets its single token overwritten in place with
        UNKNOWN; any other test gets the single token SKIPPED. */
    method FlipSkipped()
      modifies this`executionResults
      ensures executionResults == Flipped(old(executionResults))
      ensures executionResults == [UNKNOWN_KEY] <==> old(executionResults) == [SKIPPED_KEY]
      ensures executionResults == [SKIPPED_KEY] || executionResults == [UNKNOWN_KEY]
    {
      FlippedIsOneToken(executionResults);
      if |executionResults| == 1 && executionResults[0] == SKIPPED_KEY {
        executionResults := executionResults[0 := UNKNOWN_KEY];
      } else {
        executionResults := [SKIPPED_KEY];
      }
    }

    /** Running means exactly the one token RUNNING. */
    function IsRunning(): (r: bool)
      reads this
      ensures r <==> executionResults == [RUNNING_KEY]
    {
      IsRunningResults(executionResults)
    }
  }
}
