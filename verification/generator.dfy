/**
 * Generation of the workspace files from templates. A template line equal
 * to the delimiter opens a block that runs to the next delimiter line (or
 * to the end); the block is emitted once per open problem with that
 * problem's `@key@` substitution, and every line outside blocks is emitted
 * once with its `@key@` tokens replaced by configuration values.
 */
module Generation {
  import opened Wrappers
  import opened Strings
  import opened Configuration
  import opened Synchronization
  import opened Sequences

  /** A file the generator writes: its name and its lines. */
  datatype GeneratedFile = GeneratedFile(name: string, lines: seq<string>)

  predicate IsDelimiter(line: string, delimiter: Option<string>)
  {
    delimiter.Some? && line == delimiter.value
  }

  // ---------------------------------------------------------------------------
  // Block expansion, for any line substitutions
  // ---------------------------------------------------------------------------

  /** The first index at or after `start` holding a delimiter line, or the
      number of lines when there is none. */
  function BlockEnd(lines: seq<string>, start: nat, delimiter: Option<string>): (last: nat)
    requires start <= |lines|
    ensures start <= last <= |lines|
    decreases |lines| - start
  {
    if start == |lines| || IsDelimiter(lines[start], delimiter) then start
    else BlockEnd(lines, start + 1, delimiter)
  }

  /** The block end is the next delimiter line: none of the lines before it
      is one, and it is one unless it is the end of the template. */
  lemma {:induction false} BlockEndIsNextDelimiter(lines: seq<string>, start: nat, delimiter: Option<string>)
    requires start <= |lines|
    ensures forall j :: start <= j < BlockEnd(lines, start, delimiter) ==> !IsDelimiter(lines[j], delimiter)
    ensures BlockEnd(lines, start, delimiter) < |lines| ==> IsDelimiter(lines[BlockEnd(lines, start, delimiter)], delimiter)
    decreases |lines| - start
  {
    if start < |lines| && !IsDelimiter(lines[start], delimiter) {
      BlockEndIsNextDelimiter(lines, start + 1, delimiter);
    }
  }

  /** Every line of a block passed through one problem's substitution. */
  function Mapped(body: seq<string>, f: string -> string): seq<string>
  {
    seq(|body|, j requires 0 <= j < |body| => f(body[j]))
  }

  /** A block repeated once per substitution, in order. */
  function BlockLines(body: seq<string>, copies: seq<string -> string>): seq<string>
  {
    if copies == [] then []
    else BlockLines(body, copies[..|copies| - 1]) + Mapped(body, copies[|copies| - 1])
  }

  /** The output for the template lines from index `i` on: a delimiter
      line opens a block that is emitted once per copy and resumes after
      the closing delimiter; any other line is emitted once through
      `plain`. */
  function ExpandFrom(lines: seq<string>, i: nat, delimiter: Option<string>, plain: string -> string,
                      copies: seq<string -> string>): seq<string>
    decreases |lines| - i
  {
    if i >= |lines| then []
    else if IsDelimiter(lines[i], delimiter) then
      var last := BlockEnd(lines, i + 1, delimiter);
      BlockLines(lines[i + 1..last], copies) + ExpandFrom(lines, last + 1, delimiter, plain, copies)
    else [plain(lines[i])] + ExpandFrom(lines, i + 1, delimiter, plain, copies)
  }

  function Expand(lines: seq<string>, delimiter: Option<string>, plain: string -> string,
                  copies: seq<string -> string>): seq<string>
  {
    ExpandFrom(lines, 0, delimiter, plain, copies)
  }

  /** A block emits its length times the number of copies lines. */
  lemma {:induction false} BlockLinesLength(body: seq<string>, copies: seq<string -> string>)
    ensures |BlockLines(body, copies)| == |copies| * |body|
  {
    if copies != [] {
      BlockLinesLength(body, copies[..|copies| - 1]);
      MultiplySuccessor(|copies| - 1, |body|);
    }
  }

  /** The k-th copy of the j-th block line sits at `k * |body| + j` and is
      that line passed through copy k. */
  lemma {:induction false} BlockLineAt(body: seq<string>, copies: seq<string -> string>, k: nat, j: nat)
    requires k < |copies| && j < |body|
    ensures k * |body| + j < |BlockLines(body, copies)| &&
            BlockLines(body, copies)[k * |body| + j] == copies[k](body[j])
  {
    var init := copies[..|copies| - 1];
    BlockLinesLength(body, init);
    if k < |init| {
      BlockLineAt(body, init, k, j);
      assert init[k] == copies[k];
    } else {
      assert k * |body| == |init| * |body|;
    }
  }

  lemma MultiplySuccessor(a: nat, b: nat)
    ensures (a + 1) * b == a * b + b
  {
  }

  /** A template without delimiter lines is copied line by line through
      `plain`: as many lines out as in. */
  lemma {:induction false} ExpandWithoutBlocks(lines: seq<string>, i: nat, delimiter: Option<string>,
                                               plain: string -> string, copies: seq<string -> string>)
    requires i <= |lines|
    requires forall j :: i <= j < |lines| ==> !IsDelimiter(lines[j], delimiter)
    ensures |ExpandFrom(lines, i, delimiter, plain, copies)| == |lines| - i
    ensures forall j :: i <= j < |lines| ==> ExpandFrom(lines, i, delimiter, plain, copies)[j - i] == plain(lines[j])
    decreases |lines| - i
  {
    if i < |lines| {
      ExpandWithoutBlocks(lines, i + 1, delimiter, plain, copies);
      ExpandStepPlain(lines, i, delimiter, plain, copies);
      var rest := ExpandFrom(lines, i + 1, delimiter, plain, copies);
      forall j | i < j < |lines|
        ensures ExpandFrom(lines, i, delimiter, plain, copies)[j - i] == plain(lines[j])
      {
        assert ExpandFrom(lines, i, delimiter, plain, copies)[j - i] == rest[j - (i + 1)];
      }
    }
  }

  /** One closed block between plain parts: the part before, the block
      once per copy, the part after; the two delimiter lines are not
      emitted. */
  lemma OneBlock(before: seq<string>, body: seq<string>, after: seq<string>, d: string,
                 plain: string -> string, copies: seq<string -> string>)
    requires d !in before && d !in body && d !in after
    ensures Expand(before + [d] + body + [d] + after, Some(d), plain, copies)
            == Expand(before, Some(d), plain, copies) + BlockLines(body, copies) + Expand(after, Some(d), plain, copies)
  {
    var lines := before + [d] + body + [d] + after;
    var open, close := |before|, |before| + 1 + |body|;
    BlockPlaces(before, body, after, d);
    PrefixExpand(lines, open, 0, Some(d), plain, copies);
    BlockEndAt(lines, open + 1, close, Some(d));
    ExpandStepBlock(lines, open, close, Some(d), plain, copies);
    PlainTail(lines, close + 1, after, Some(d), plain, copies);
    AppendAssoc(Expand(before, Some(d), plain, copies), BlockLines(body, copies), Expand(after, Some(d), plain, copies));
  }

  /** The lines from index `i` on, counted by a scan that starts outside
      or `inside` a block and crosses into or out of one at every delimiter
      line: the lines met outside blocks and the lines met inside them.
      Delimiter lines are in neither count. */
  function LineCounts(lines: seq<string>, i: nat, inside: bool, delimiter: Option<string>): (counts: (nat, nat))
    ensures counts.0 + counts.1 <= if i <= |lines| then |lines| - i else 0
    decreases |lines| - i
  {
    if i >= |lines| then (0, 0)
    else if IsDelimiter(lines[i], delimiter) then LineCounts(lines, i + 1, !inside, delimiter)
    else
      var rest := LineCounts(lines, i + 1, inside, delimiter);
      if inside then (rest.0, rest.1 + 1) else (rest.0 + 1, rest.1)
  }

  /** Inside a block the scan counts every line up to the block end as a
      block line, then goes on outside after the closing delimiter. */
  lemma {:induction false} InsideRun(lines: seq<string>, k: nat, delimiter: Option<string>)
    requires k <= |lines|
    ensures var last := BlockEnd(lines, k, delimiter);
            var rest := LineCounts(lines, last + 1, false, delimiter);
            var counts := LineCounts(lines, k, true, delimiter);
            counts.0 == rest.0 && counts.1 == rest.1 + (last - k)
    decreases |lines| - k
  {
    if k < |lines| && !IsDelimiter(lines[k], delimiter) {
      InsideRun(lines, k + 1, delimiter);
    }
  }

  lemma Distribute(a: nat, b: nat, c: nat)
    ensures a * (b + c) == a * b + a * c
  {
  }

  /** The number of lines the generator writes from index `i` on: one per
      line outside blocks, and one per line inside a block for every copy. */
  lemma {:induction false} ExpandLengthFrom(lines: seq<string>, i: nat, delimiter: Option<string>,
                                            plain: string -> string, copies: seq<string -> string>)
    ensures var counts := LineCounts(lines, i, false, delimiter);
            |ExpandFrom(lines, i, delimiter, plain, copies)| == counts.0 + |copies| * counts.1
    decreases |lines| - i
  {
    if i < |lines| {
      if IsDelimiter(lines[i], delimiter) {
        var last := BlockEnd(lines, i + 1, delimiter);
        ExpandLengthFrom(lines, last + 1, delimiter, plain, copies);
        BlockStepLength(lines, i, delimiter, plain, copies);
      } else {
        ExpandLengthFrom(lines, i + 1, delimiter, plain, copies);
        PlainStepLength(lines, i, delimiter, plain, copies);
      }
    }
  }

  /** A block opened at line `i` adds its length times the number of copies
      to the count of what follows its closing delimiter. */
  lemma BlockStepLength(lines: seq<string>, i: nat, delimiter: Option<string>,
                        plain: string -> string, copies: seq<string -> string>)
    requires i < |lines| && IsDelimiter(lines[i], delimiter)
    requires var rest := LineCounts(lines, BlockEnd(lines, i + 1, delimiter) + 1, false, delimiter);
             |ExpandFrom(lines, BlockEnd(lines, i + 1, delimiter) + 1, delimiter, plain, copies)|
             == rest.0 + |copies| * rest.1
    ensures var counts := LineCounts(lines, i, false, delimiter);
            |ExpandFrom(lines, i, delimiter, plain, copies)| == counts.0 + |copies| * counts.1
  {
    var last := BlockEnd(lines, i + 1, delimiter);
    var rest := LineCounts(lines, last + 1, false, delimiter);
    var counts := LineCounts(lines, i, false, delimiter);
    var block := BlockLines(lines[i + 1..last], copies);
    var tail := ExpandFrom(lines, last + 1, delimiter, plain, copies);
    ExpandStepBlock(lines, i, last, delimiter, plain, copies);
    BlockLinesLength(lines[i + 1..last], copies);
    InsideRun(lines, i + 1, delimiter);
    assert counts == LineCounts(lines, i + 1, true, delimiter);
    LengthStep(|copies|, last - (i + 1), rest.0, rest.1, |block|, |tail|, counts.0, counts.1);
  }

  /** A line outside blocks adds one line to the output and to the count
      of lines outside blocks. */
  lemma PlainStepLength(lines: seq<string>, i: nat, delimiter: Option<string>,
                        plain: string -> string, copies: seq<string -> string>)
    requires i < |lines| && !IsDelimiter(lines[i], delimiter)
    requires var rest := LineCounts(lines, i + 1, false, delimiter);
             |ExpandFrom(lines, i + 1, delimiter, plain, copies)| == rest.0 + |copies| * rest.1
    ensures var counts := LineCounts(lines, i, false, delimiter);
            |ExpandFrom(lines, i, delimiter, plain, copies)| == counts.0 + |copies| * counts.1
  {
    var rest := LineCounts(lines, i + 1, false, delimiter);
    var counts := LineCounts(lines, i, false, delimiter);
    ExpandStepPlain(lines, i, delimiter, plain, copies);
    assert counts.0 == rest.0 + 1 && counts.1 == rest.1;
  }

  /** The arithmetic of one block step: the block's lines plus the rest's. */
  lemma LengthStep(n: nat, inner: nat, r0: nat, r1: nat, blockLength: nat, tailLength: nat, c0: nat, c1: nat)
    requires blockLength == n * inner && tailLength == r0 + n * r1
    requires c0 == r0 && c1 == r1 + inner
    ensures blockLength + tailLength == c0 + n * c1
  {
    Distribute(n, r1, inner);
  }

  /** Every template, with any number of blocks and a last block closed
      or not: the output has a line for each line outside blocks and, for
      each problem, a line for each line inside blocks; delimiter lines
      give none. */
  lemma ExpandLength(lines: seq<string>, delimiter: Option<string>, plain: string -> string,
                     copies: seq<string -> string>)
    ensures var counts := LineCounts(lines, 0, false, delimiter);
            |Expand(lines, delimiter, plain, copies)| == counts.0 + |copies| * counts.1
  {
    ExpandLengthFrom(lines, 0, delimiter, plain, copies);
  }

  /** The scan on a template with one closed block between plain parts:
      the plain parts are outside, the body inside. */
  lemma {:induction false} OneBlockCounts(before: seq<string>, body: seq<string>, after: seq<string>, d: string)
    requires d !in before && d !in body && d !in after
    ensures var counts := LineCounts(before + [d] + body + [d] + after, 0, false, Some(d));
            counts.0 == |before| + |after| && counts.1 == |body|
  {
    var lines := before + [d] + body + [d] + after;
    OnlyTwoDelimiters(before, body, after, d);
    CountsAroundBlock(lines, |before|, |before| + 1 + |body|, |after|, Some(d));
  }

  /** In a template with one closed block, the two delimiter lines are the
      only ones. */
  lemma {:induction false} OnlyTwoDelimiters(before: seq<string>, body: seq<string>, after: seq<string>, d: string)
    requires d !in before && d !in body && d !in after
    ensures var lines := before + [d] + body + [d] + after;
            var open, close := |before|, |before| + 1 + |body|;
            |lines| == close + 1 + |after| && DelimitersOnlyAt(lines, open, close, Some(d))
  {
    var lines := before + [d] + body + [d] + after;
    var open, close := |before|, |before| + 1 + |body|;
    forall j | 0 <= j < |lines| && j != open && j != close ensures !IsDelimiter(lines[j], Some(d)) {
      if j < open {
        assert lines[j] == before[j];
      } else if j < close {
        assert lines[j] == body[j - open - 1];
      } else {
        assert lines[j] == after[j - close - 1];
      }
    }
  }

  /** The delimiter lines of `lines` are exactly those at `open` and `close`. */
  predicate DelimitersOnlyAt(lines: seq<string>, open: nat, close: nat, delimiter: Option<string>)
  {
    open < close < |lines| &&
    IsDelimiter(lines[open], delimiter) && IsDelimiter(lines[close], delimiter) &&
    forall j :: 0 <= j < |lines| && j != open && j != close ==> !IsDelimiter(lines[j], delimiter)
  }

  /** The scan on a template whose only delimiter lines are at `open` and
      `close`. */
  lemma {:induction false} CountsAroundBlock(lines: seq<string>, open: nat, close: nat, tail: nat, delimiter: Option<string>)
    requires DelimitersOnlyAt(lines, open, close, delimiter) && |lines| == close + 1 + tail
    ensures var counts := LineCounts(lines, 0, false, delimiter);
            counts.0 == open + tail && counts.1 == close - open - 1
  {
    BlockEndAtEnd(lines, close + 1, delimiter);
    OutsideRun(lines, close + 1, delimiter);
    BlockEndAt(lines, open + 1, close, delimiter);
    InsideRun(lines, open + 1, delimiter);
    BlockEndAt(lines, 0, open, delimiter);
    OutsideRun(lines, 0, delimiter);
  }

  /** With no delimiter line from `start` on, the block runs to the end. */
  lemma {:induction false} BlockEndAtEnd(lines: seq<string>, start: nat, delimiter: Option<string>)
    requires start <= |lines|
    requires forall j :: start <= j < |lines| ==> !IsDelimiter(lines[j], delimiter)
    ensures BlockEnd(lines, start, delimiter) == |lines|
    decreases |lines| - start
  {
    if start < |lines| {
      BlockEndAtEnd(lines, start + 1, delimiter);
    }
  }

  /** Outside blocks, the scan counts every line up to the next delimiter
      line as outside, then goes on inside. */
  lemma {:induction false} OutsideRun(lines: seq<string>, k: nat, delimiter: Option<string>)
    requires k <= |lines|
    ensures var next := BlockEnd(lines, k, delimiter);
            var rest := LineCounts(lines, next + 1, true, delimiter);
            var counts := LineCounts(lines, k, false, delimiter);
            if next < |lines| then counts.0 == rest.0 + (next - k) && counts.1 == rest.1
            else counts.0 == next - k && counts.1 == 0
    decreases |lines| - k
  {
    if k < |lines| && !IsDelimiter(lines[k], delimiter) {
      OutsideRun(lines, k + 1, delimiter);
    }
  }

  /** Where the parts of a template with one closed block sit. */
  lemma BlockPlaces(before: seq<string>, body: seq<string>, after: seq<string>, d: string)
    requires d !in before && d !in body
    ensures var lines := before + [d] + body + [d] + after;
            |before| + 1 + |body| < |lines| && lines[..|before|] == before
    ensures var lines := before + [d] + body + [d] + after;
            forall j :: 0 <= j < |before| ==> !IsDelimiter(lines[j], Some(d))
    ensures var lines := before + [d] + body + [d] + after;
            lines[|before|] == d && lines[|before| + 1 + |body|] == d
    ensures var lines := before + [d] + body + [d] + after;
            forall j :: |before| + 1 <= j < |before| + 1 + |body| ==> !IsDelimiter(lines[j], Some(d))
    ensures var lines := before + [d] + body + [d] + after;
            lines[|before| + 1..|before| + 1 + |body|] == body
    ensures var lines := before + [d] + body + [d] + after;
            lines[|before| + 1 + |body| + 1..] == after
  {
    var lines := before + [d] + body + [d] + after;
    var open, close := |before|, |before| + 1 + |body|;
    assert forall j :: 0 <= j < open ==> lines[j] == before[j];
    assert forall j :: open + 1 <= j < close ==> lines[j] == body[j - open - 1];
    assert forall j :: close + 1 <= j < |lines| ==> lines[j] == after[j - close - 1];
  }

  /** The block that starts at `start` ends at `last` when the first
      delimiter line from `start` on is at `last`. */
  lemma {:induction false} BlockEndAt(lines: seq<string>, start: nat, last: nat, delimiter: Option<string>)
    requires start <= last < |lines| && IsDelimiter(lines[last], delimiter)
    requires forall j :: start <= j < last ==> !IsDelimiter(lines[j], delimiter)
    ensures BlockEnd(lines, start, delimiter) == last
    decreases last - start
  {
    if start < last {
      BlockEndAt(lines, start + 1, last, delimiter);
    }
  }

  /** When the lines from `i` up to `k` hold no delimiter line, expanding
      from `i` gives those lines expanded, followed by the rest expanded. */
  lemma {:induction false} PrefixExpand(lines: seq<string>, k: nat, i: nat, delimiter: Option<string>,
                                        plain: string -> string, copies: seq<string -> string>)
    requires i <= k <= |lines|
    requires forall j :: i <= j < k ==> !IsDelimiter(lines[j], delimiter)
    ensures ExpandFrom(lines, i, delimiter, plain, copies)
            == ExpandFrom(lines[..k], i, delimiter, plain, copies) + ExpandFrom(lines, k, delimiter, plain, copies)
    decreases k - i
  {
    if i < k {
      PrefixExpand(lines, k, i + 1, delimiter, plain, copies);
      ExpandStepPlain(lines, i, delimiter, plain, copies);
      assert lines[..k][i] == lines[i];
      ExpandStepPlain(lines[..k], i, delimiter, plain, copies);
      AppendAssoc([plain(lines[i])], ExpandFrom(lines[..k], i + 1, delimiter, plain, copies),
                  ExpandFrom(lines, k, delimiter, plain, copies));
    } else {
      ExpandPastEnd(lines[..k], k, delimiter, plain, copies);
    }
  }

  /** A part without delimiter lines expands to its lines each passed
      through `plain`. */
  lemma PlainExpansion(lines: seq<string>, i: nat, delimiter: Option<string>,
                       plain: string -> string, copies: seq<string -> string>)
    requires i <= |lines|
    requires forall j :: i <= j < |lines| ==> !IsDelimiter(lines[j], delimiter)
    ensures ExpandFrom(lines, i, delimiter, plain, copies) == Mapped(lines[i..], plain)
  {
    ExpandWithoutBlocks(lines, i, delimiter, plain, copies);
    assert forall j :: i <= j < |lines| ==> Mapped(lines[i..], plain)[j - i] == plain(lines[j]);
  }

  /** A tail without delimiter lines expands as a template of its own. */
  lemma PlainTail(lines: seq<string>, k: nat, tail: seq<string>, delimiter: Option<string>,
                  plain: string -> string, copies: seq<string -> string>)
    requires k <= |lines| && lines[k..] == tail
    requires forall j :: 0 <= j < |tail| ==> !IsDelimiter(tail[j], delimiter)
    ensures ExpandFrom(lines, k, delimiter, plain, copies) == Expand(tail, delimiter, plain, copies)
  {
    assert forall j :: k <= j < |lines| ==> lines[j] == tail[j - k];
    PlainExpansion(lines, k, delimiter, plain, copies);
    PlainExpansion(tail, 0, delimiter, plain, copies);
    assert tail[0..] == tail;
  }

  lemma ExpandPastEnd(lines: seq<string>, i: nat, delimiter: Option<string>, plain: string -> string,
                      copies: seq<string -> string>)
    requires i >= |lines|
    ensures ExpandFrom(lines, i, delimiter, plain, copies) == []
  {
  }

  lemma ExpandStepPlain(lines: seq<string>, i: nat, delimiter: Option<string>, plain: string -> string,
                        copies: seq<string -> string>)
    requires i < |lines| && !IsDelimiter(lines[i], delimiter)
    ensures ExpandFrom(lines, i, delimiter, plain, copies)
            == [plain(lines[i])] + ExpandFrom(lines, i + 1, delimiter, plain, copies)
  {
  }

  lemma ExpandStepBlock(lines: seq<string>, i: nat, last: nat, delimiter: Option<string>,
                        plain: string -> string, copies: seq<string -> string>)
    requires i < |lines| && IsDelimiter(lines[i], delimiter) && last == BlockEnd(lines, i + 1, delimiter)
    ensures ExpandFrom(lines, i, delimiter, plain, copies)
            == BlockLines(lines[i + 1..last], copies) + ExpandFrom(lines, last + 1, delimiter, plain, copies)
  {
  }

  // ---------------------------------------------------------------------------
  // The substitutions of the generator
  // ---------------------------------------------------------------------------

  /** A line outside blocks: odd '@'-tokens become configuration values. */
  function PlainLine(line: string, config: Config): string
  {
    SubstituteOdd(line, '@', k => Text(Get(config, k)))
  }

  /** `PlainLine` as the substitution handed to `Expand`. */
  function Plain(config: Config): string -> string
  {
    line => PlainLine(line, config)
  }

  /** One substitution per open problem, in collection order: the
      problem's `substituteKeys` with names not restricted. */
  function Copies(syncs: seq<ProblemSync>): (copies: seq<string -> string>)
    ensures |copies| == |syncs|
  {
    seq(|syncs|, k requires 0 <= k < |syncs| =>
          line => Substituted(line, Some(syncs[k].directory), syncs[k].getValue, false))
  }

  /** The copy for problem `k` substitutes that problem's keys. */
  lemma CopyAt(syncs: seq<ProblemSync>, k: nat, line: string)
    requires k < |syncs|
    ensures Copies(syncs)[k](line) == Substituted(line, Some(syncs[k].directory), syncs[k].getValue, false)
  {
  }

  /** The generator's output for a template. */
  function Generated(lines: seq<string>, delimiter: Option<string>, syncs: seq<ProblemSync>, config: Config): seq<string>
  {
    Expand(lines, delimiter, Plain(config), Copies(syncs))
  }

  /** The last segment of a path, as `Path.getFileName`: the characters
      after its last '/'. */
  function FileName(path: string): (name: string)
    ensures '/' !in name
    ensures |name| <= |path| && name == path[|path| - |name|..]
  {
    if path == [] || path[|path| - 1] == '/' then []
    else
      var front := path[..|path| - 1];
      var name := FileName(front) + [path[|path| - 1]];
      assert path[|path| - |name|..] == front[|front| - (|name| - 1)..] + [path[|path| - 1]];
      name
  }

  /** A plain template line with its odd '@'-tokens replaced by
      configuration values. */
  method SubstituteConfigKeys(line: string, config: Config) returns (r: string)
    ensures r == PlainLine(line, config)
  {
    var tokens := Split(line, '@');
    var replaced := ReplaceOddTokens(tokens, k => Text(Get(config, k)));
    r := Join("", replaced);
  }

  /** The lines `lines[start..last]` with problem `s`'s substitution. */
  method EmitCopy(lines: seq<string>, start: nat, last: nat, syncs: seq<ProblemSync>, s: nat) returns (out: seq<string>)
    requires start <= last <= |lines| && s < |syncs|
    ensures out == Mapped(lines[start..last], Copies(syncs)[s])
  {
    ghost var copy := Copies(syncs)[s];
    out := [];
    var j := start;
    while j < last
      invariant start <= j <= last && |out| == j - start
      invariant forall t :: 0 <= t < |out| ==> out[t] == copy(lines[start + t])
    {
      var line := syncs[s].SubstituteKeys(lines[j], false);
      CopyAt(syncs, s, lines[j]);
      out := out + [line];
      j := j + 1;
    }
  }

  /** The lines `lines[start..last]` emitted for each problem in turn, with
      that problem's substitution. */
  method EmitBlock(lines: seq<string>, start: nat, last: nat, syncs: seq<ProblemSync>) returns (out: seq<string>)
    requires start <= last <= |lines|
    ensures out == BlockLines(lines[start..last], Copies(syncs))
  {
    ghost var body := lines[start..last];
    ghost var copies := Copies(syncs);
    out := [];
    var s := 0;
    while s < |syncs|
      invariant 0 <= s <= |syncs|
      invariant out == BlockLines(body, copies[..s])
    {
      var copied := EmitCopy(lines, start, last, syncs, s);
      assert copies[..s + 1][..s] == copies[..s];
      out := out + copied;
      s := s + 1;
    }
    assert copies[..s] == copies;
  }


  /** The message of a template that cannot be read: the output file name,
      " file generation failed:", and the path on the next line. */
  function GenerationFailed(templatePath: string): string
  {
    FileName(templatePath) + " file generation failed:\n" + templatePath
  }

  /** What `configureFile` produces for `templatePath`: the expanded
      template under its own file name, or the failure message when the
      template cannot be read. */
  function Configured(templatePath: string, templates: map<string, seq<string>>, syncs: seq<ProblemSync>,
                      config: Config): (r: Result<GeneratedFile, string>)
    ensures r.Ok? <==> templatePath in templates
    ensures r.Ok? ==> r.value.name == FileName(templatePath) && '/' !in r.value.name
  {
    if templatePath !in templates then Err(GenerationFailed(templatePath))
    else Ok(GeneratedFile(FileName(templatePath),
                          Generated(templates[templatePath], Get(config, "problems delimiter"), syncs, config)))
  }

  /** The scan for the delimiter line that closes a block opened just
      before `start`. */
  method FindBlockEnd(inputLines: seq<string>, start: nat, delimiter: Option<string>) returns (last: nat)
    requires start <= |inputLines|
    ensures last == BlockEnd(inputLines, start, delimiter)
  {
    last := start;
    while last < |inputLines| && !IsDelimiter(inputLines[last], delimiter)
      invariant start <= last <= |inputLines|
      invariant BlockEnd(inputLines, last, delimiter) == BlockEnd(inputLines, start, delimiter)
    {
      last := last + 1;
    }
  }

  /** One step of the template loop at line `i`: a plain line or a whole
      block, with the index of the next line to look at. */
  method ExpandLine(inputLines: seq<string>, i: nat, delimiter: Option<string>, syncs: seq<ProblemSync>,
                    config: Config) returns (emitted: seq<string>, next: nat)
    requires i < |inputLines|
    ensures i < next
    ensures ExpandFrom(inputLines, i, delimiter, Plain(config), Copies(syncs))
            == emitted + ExpandFrom(inputLines, next, delimiter, Plain(config), Copies(syncs))
  {
    if IsDelimiter(inputLines[i], delimiter) {
      emitted, next := ExpandBlockAt(inputLines, i, delimiter, syncs, config);
    } else {
      var line := SubstituteConfigKeys(inputLines[i], config);
      ExpandStepPlain(inputLines, i, delimiter, Plain(config), Copies(syncs));
      emitted := [line];
      next := i + 1;
    }
  }

  /** The block branch of the template loop: the block opened at line `i`
      is emitted once per problem, and the loop resumes after its closing
      delimiter. */
  method ExpandBlockAt(inputLines: seq<string>, i: nat, delimiter: Option<string>, syncs: seq<ProblemSync>,
                       config: Config) returns (emitted: seq<string>, next: nat)
    requires i < |inputLines| && IsDelimiter(inputLines[i], delimiter)
    ensures i < next
    ensures ExpandFrom(inputLines, i, delimiter, Plain(config), Copies(syncs))
            == emitted + ExpandFrom(inputLines, next, delimiter, Plain(config), Copies(syncs))
  {
    var last := FindBlockEnd(inputLines, i + 1, delimiter);
    emitted := EmitBlock(inputLines, i + 1, last, syncs);
    ExpandStepBlock(inputLines, i, last, delimiter, Plain(config), Copies(syncs));
    next := last + 1;
  }

  /** The template loop of `configureFile`: plain lines and whole blocks
      in turn, each expanded as the generator does. */
  method ExpandTemplate(inputLines: seq<string>, delimiter: Option<string>, syncs: seq<ProblemSync>,
                        config: Config) returns (outputLines: seq<string>)
    ensures outputLines == Generated(inputLines, delimiter, syncs, config)
  {
    outputLines := [];
    var i := 0;
    while i < |inputLines|
      invariant outputLines + ExpandFrom(inputLines, i, delimiter, Plain(config), Copies(syncs))
                == Generated(inputLines, delimiter, syncs, config)
    {
      var emitted, next := ExpandLine(inputLines, i, delimiter, syncs, config);
      AppendAssoc(outputLines, emitted, ExpandFrom(inputLines, next, delimiter, Plain(config), Copies(syncs)));
      outputLines := outputLines + emitted;
      i := next;
    }
    assert outputLines + [] == outputLines;
  }

  /** `configureFile`: the template at `templatePath` expanded into a file
      of the same name; a template that cannot be read is reported as
      "<name> file generation failed:\n<path>". */
  method ConfigureFile(templatePath: string, templates: map<string, seq<string>>, syncs: seq<ProblemSync>,
                       config: Config) returns (r: Result<GeneratedFile, string>)
    ensures r == Configured(templatePath, templates, syncs, config)
  {
    var delimiter := Get(config, "problems delimiter");
    var outputName := FileName(templatePath);
    if templatePath !in templates {
      return Err(GenerationFailed(templatePath));
    }
    var outputLines := ExpandTemplate(templates[templatePath], delimiter, syncs, config);
    r := Ok(GeneratedFile(outputName, outputLines));
  }

  /** Some problem asks for the project to be regenerated. */
  ghost predicate AnyRegenerationRequired(syncs: seq<ProblemSync>)
    reads set s | s in syncs
  {
    exists s :: s in syncs && s.ProjectRegenerationRequired()
  }

  /** The loop of `generate` that folds the problems' reports into the
      project flag. */
  method RegenerationFlag(syncs: seq<ProblemSync>, project: bool) returns (regenerate: bool)
    ensures regenerate <==> project || AnyRegenerationRequired(syncs)
  {
    regenerate := project;
    if !regenerate {
      var k := 0;
      while k < |syncs|
        invariant 0 <= k <= |syncs|
        invariant regenerate <==> exists s :: s in syncs[..k] && s.ProjectRegenerationRequired()
      {
        assert syncs[..k + 1] == syncs[..k] + [syncs[k]];
        regenerate := regenerate || syncs[k].ProjectRegenerationRequired();
        k := k + 1;
      }
      assert syncs[..k] == syncs;
    }
  }

  /** Every problem marked unchanged; nothing else about them changes. */
  method MarkAllUnchanged(syncs: seq<ProblemSync>)
    modifies set s | s in syncs
    ensures forall s :: s in syncs ==> !s.problemChanged && !s.testSetChanged
    ensures forall s :: s in syncs ==>
              (s.files == old(s.files) && s.testCaseNames == old(s.testCaseNames) &&
               s.manualTestIndex == old(s.manualTestIndex))
  {
    var k := 0;
    while k < |syncs|
      invariant 0 <= k <= |syncs|
      invariant forall s :: s in syncs[..k] ==> !s.problemChanged && !s.testSetChanged
      invariant forall s :: s in syncs ==>
                  (s.files == old(s.files) && s.testCaseNames == old(s.testCaseNames) &&
                   s.manualTestIndex == old(s.manualTestIndex))
    {
      syncs[k].MarkUnchanged();
      assert syncs[..k + 1] == syncs[..k] + [syncs[k]];
      k := k + 1;
    }
    assert syncs[..k] == syncs;
  }

  /** What `generate` writes and runs: the files template expanded and the
      files command, then, when regenerating, the project template expanded
      and the project command; it stops at the first template that cannot
      be read. */
  datatype Generation = Generation(written: seq<GeneratedFile>, commands: seq<Option<string>>, error: Option<string>)

  function Planned(regenerate: bool, config: Config, templates: map<string, seq<string>>,
                   syncs: seq<ProblemSync>): Generation
    requires "generate files template" in config && "generate project template" in config
  {
    var files := Configured(config["generate files template"], templates, syncs, config);
    var filesCommand := Get(config, "generate files command");
    if files.Err? then Generation([], [], Some(files.error))
    else if !regenerate then Generation([files.value], [filesCommand], None)
    else
      var project := Configured(config["generate project template"], templates, syncs, config);
      if project.Err? then Generation([files.value], [filesCommand], Some(project.error))
      else Generation([files.value, project.value], [filesCommand, Get(config, "generate project command")], None)
  }

  /** The files template is always processed and its command always run;
      the project template and command only when regenerating. */
  lemma ProjectOnlyWhenRegenerating(regenerate: bool, config: Config, templates: map<string, seq<string>>,
                                    syncs: seq<ProblemSync>)
    requires "generate files template" in config && "generate project template" in config
    ensures var g := Planned(regenerate, config, templates, syncs);
            (config["generate files template"] in templates ==>
               |g.written| >= 1 && g.written[0].name == FileName(config["generate files template"]) &&
               g.commands[0] == Get(config, "generate files command")) &&
            (!regenerate ==> |g.written| <= 1 && |g.commands| <= 1 && g.error.None? ==
                               (config["generate files template"] in templates)) &&
            (g.error.None? && regenerate ==> |g.written| == 2 && |g.commands| == 2)
  {
  }

  /** The template part of `generate`, once the project flag is known. */
  method ConfigureAll(regenerate: bool, config: Config, templates: map<string, seq<string>>,
                      syncs: seq<ProblemSync>) returns (g: Generation)
    requires "generate files template" in config && "generate project template" in config
    ensures g == Planned(regenerate, config, templates, syncs)
  {
    var files := ConfigureFile(config["generate files template"], templates, syncs, config);
    var filesCommand := Get(config, "generate files command");
    if files.Err? {
      g := Generation([], [], Some(files.error));
    } else if !regenerate {
      g := Generation([files.value], [filesCommand], None);
    } else {
      var project := ConfigureFile(config["generate project template"], templates, syncs, config);
      if project.Err? {
        g := Generation([files.value], [filesCommand], Some(project.error));
      } else {
        g := Generation([files.value, project.value], [filesCommand, Get(config, "generate project command")], None);
      }
    }
  }

  /** `generate`: unless forced, the project is regenerated exactly when
      some problem asks for it; the outputs follow `Planned`, and after
      success every problem is marked unchanged. */
  method Generate(syncs: seq<ProblemSync>, project: bool, config: Config, templates: map<string, seq<string>>)
    returns (g: Generation)
    requires "generate files template" in config && "generate project template" in config
    modifies set s | s in syncs
    ensures g == Planned(project || old(AnyRegenerationRequired(syncs)), config, templates, syncs)
    ensures g.error.None? ==> forall s :: s in syncs ==> !s.problemChanged && !s.testSetChanged
    ensures g.error.Some? ==> unchanged(set s | s in syncs)
    ensures forall s :: s in syncs ==>
              (s.files == old(s.files) && s.testCaseNames == old(s.testCaseNames) &&
               s.manualTestIndex == old(s.manualTestIndex))
  {
    var regenerate := RegenerationFlag(syncs, project);
    g := ConfigureAll(regenerate, config, templates, syncs);
    if g.error.None? {
      MarkAllUnchanged(syncs);
    }
  }
}
