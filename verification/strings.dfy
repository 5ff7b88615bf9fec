/**
 * The string operations of the Java and C++ libraries that the core relies on,
 * written out: `String.split` with a one-character pattern (with and without a
 * limit), `String.join`, `indexOf`/`contains`, `Integer.toString` for the
 * numbered test names, the line-oriented file format written by `Files.write`
 * and read back by `std::getline`, and the odd-token replacement that every
 * template substitution of the project uses.
 */
module Strings {
  import opened Wrappers

  // ---------------------------------------------------------------------------
  // Splitting and joining
  // ---------------------------------------------------------------------------

  /** Every piece of `s` between occurrences of `c`, empty pieces included:
      there is always one more piece than there are occurrences of `c`. */
  function SplitAll(s: string, c: char): (parts: seq<string>)
    ensures |parts| >= 1
  {
    if s == [] then [""]
    else
      var rest := SplitAll(s[1..], c);
      if s[0] == c then [""] + rest else [[s[0]] + rest[0]] + rest[1..]
  }

  /** The pieces joined with `d` between consecutive pieces (`String.join`). */
  function Join(d: string, parts: seq<string>): string
  {
    if |parts| == 0 then ""
    else if |parts| == 1 then parts[0]
    else parts[0] + d + Join(d, parts[1..])
  }

  /** Java's `s.split(p)` for a pattern `p` matching exactly the character `c`:
      the input itself when `c` does not occur, otherwise all pieces with the
      trailing empty ones removed. */
  function Split(s: string, c: char): (parts: seq<string>)
  {
    if c !in s then [s] else DropTrailingEmpty(SplitAll(s, c))
  }

  function DropTrailingEmpty(parts: seq<string>): (r: seq<string>)
    ensures |r| <= |parts| && r == parts[..|r|]
    ensures r == [] || r[|r| - 1] != ""
    ensures forall k :: |r| <= k < |parts| ==> parts[k] == ""
  {
    if |parts| > 0 && parts[|parts| - 1] == "" then DropTrailingEmpty(parts[..|parts| - 1]) else parts
  }

  /** The index of the first occurrence of `c` in `s`. */
  function FirstIndexOf(s: string, c: char): (i: nat)
    requires c in s
    ensures i < |s| && s[i] == c && c !in s[..i]
  {
    if s[0] == c then 0 else 1 + FirstIndexOf(s[1..], c)
  }

  /** Java's `s.split(p, 2)` for a pattern matching exactly `c`: the text before
      the first `c` and everything after it, or the whole input when there is no
      `c`. Joining the pieces with `c` gives the input back. */
  function SplitFirst(s: string, c: char): (parts: seq<string>)
    ensures 1 <= |parts| <= 2
    ensures Join([c], parts) == s
    ensures c !in parts[0]
    ensures |parts| == 1 <==> c !in s
  {
    if c in s then
      var i := FirstIndexOf(s, c);
      assert s == s[..i] + [c] + s[i + 1..];
      [s[..i], s[i + 1..]]
    else [s]
  }

  lemma {:induction false} SplitAllWithout(s: string, c: char)
    requires c !in s
    ensures SplitAll(s, c) == [s]
  {
    if s != [] {
      assert c !in s[1..];
      SplitAllWithout(s[1..], c);
      assert [s[0]] + s[1..] == s;
    }
  }

  /** Splitting `a + c + b` where `a` holds no `c` yields `a` followed by the
      pieces of `b`. */
  lemma {:induction false} SplitAllAfterPiece(a: string, c: char, b: string)
    requires c !in a
    ensures SplitAll(a + [c] + b, c) == [a] + SplitAll(b, c)
  {
    if a == [] {
      assert a + [c] + b == [c] + b;
      assert ([c] + b)[1..] == b;
    } else {
      assert (a + [c] + b)[1..] == a[1..] + [c] + b;
      SplitAllAfterPiece(a[1..], c, b);
      assert [a[0]] + a[1..] == a;
    }
  }

  /** Joining the pieces with the delimiter restores the input. */
  lemma {:induction false} JoinSplitAll(s: string, c: char)
    ensures Join([c], SplitAll(s, c)) == s
  {
    if s != [] {
      JoinSplitAll(s[1..], c);
      var rest := SplitAll(s[1..], c);
      if s[0] == c {
        assert ([""] + rest)[1..] == rest;
      } else {
        var parts := [[s[0]] + rest[0]] + rest[1..];
        if |rest| > 1 {
          assert parts[1..] == rest[1..];
        }
        assert [s[0]] + s[1..] == s;
      }
    }
  }

  // ---------------------------------------------------------------------------
  // Substring search
  // ---------------------------------------------------------------------------

  /** `sub` occurs in `s` starting at position `i`. */
  predicate OccursAt(s: string, sub: string, i: nat)
  {
    i + |sub| <= |s| && s[i..i + |sub|] == sub
  }

  /** Java's `s.indexOf(sub)`: the first position at which `sub` occurs. */
  function IndexOf(s: string, sub: string): (r: Option<nat>)
    ensures r.Some? ==> OccursAt(s, sub, r.value)
    ensures r.Some? ==> forall j: nat :: j < r.value ==> !OccursAt(s, sub, j)
    ensures r.None? ==> forall j: nat :: !OccursAt(s, sub, j)
    decreases |s|
  {
    if |sub| > |s| then None
    else if s[..|sub|] == sub then Some(0)
    else
      var r := IndexOf(s[1..], sub);
      assert !OccursAt(s, sub, 0);
      assert forall j: nat {:trigger OccursAt(s, sub, j)} :: 1 <= j ==> (OccursAt(s, sub, j) <==> OccursAt(s[1..], sub, j - 1));
      match r
      case None => None
      case Some(k) => Some(k + 1)
  }

  /** Java's `s.contains(sub)`. */
  predicate Contains(s: string, sub: string)
  {
    IndexOf(s, sub).Some?
  }

  // ---------------------------------------------------------------------------
  // Unix paths: `Paths.get(first, more).toString()`
  // ---------------------------------------------------------------------------

  /** No two '/' in a row. */
  predicate NoDoubleSlash(p: string)
  {
    forall i :: 0 <= i < |p| - 1 ==> !(p[i] == '/' && p[i + 1] == '/')
  }

  /** The form a Unix path keeps: no two '/' in a row, and no '/' at the
      end unless the path is the root "/" itself. */
  predicate NormalPath(p: string)
  {
    NoDoubleSlash(p) && (|p| > 1 ==> p[|p| - 1] != '/')
  }

  /** Every run of '/' shortened to one '/'. */
  function CollapseSlashes(s: string): (c: string)
    ensures NoDoubleSlash(c)
    ensures s != [] ==> c != [] && c[0] == s[0] && c[|c| - 1] == s[|s| - 1]
  {
    if |s| <= 1 then s
    else if s[0] == '/' && s[1] == '/' then CollapseSlashes(s[1..])
    else [s[0]] + CollapseSlashes(s[1..])
  }

  /** The normalisation of a Unix path: runs of '/' collapsed and a final
      '/' dropped, a path made only of '/' becoming "/". */
  function NormalizePath(s: string): (p: string)
    ensures NormalPath(p)
  {
    var c := CollapseSlashes(s);
    if |c| > 1 && c[|c| - 1] == '/' then c[..|c| - 1] else c
  }

  /** `Paths.get(first, more).toString()`: the non-empty parts joined by
      '/', then normalised. */
  function JoinPath(first: string, more: string): (p: string)
    ensures NormalPath(p)
  {
    NormalizePath(if more == "" then first else if first == "" then more else first + "/" + more)
  }

  lemma {:induction false} CollapseWithoutDoubleSlash(s: string)
    requires NoDoubleSlash(s)
    ensures CollapseSlashes(s) == s
  {
    if |s| > 1 {
      assert !(s[0] == '/' && s[1] == '/');
      CollapseWithoutDoubleSlash(s[1..]);
    }
  }

  /** A normal path is left as it is, so normalising twice changes
      nothing. */
  lemma NormalizeNormal(p: string)
    requires NormalPath(p)
    ensures NormalizePath(p) == p
    ensures NormalizePath(NormalizePath(p)) == NormalizePath(p)
  {
    CollapseWithoutDoubleSlash(p);
  }

  /** Joining a normal directory with a normal relative part that neither
      is the root nor starts with '/' is plain concatenation with one '/'. */
  lemma JoinNormalParts(first: string, more: string)
    requires NormalPath(first) && first != "" && first != "/"
    requires NormalPath(more) && more != "" && more[0] != '/'
    ensures JoinPath(first, more) == first + "/" + more
  {
    var joined := first + "/" + more;
    forall i | 0 <= i < |joined| - 1 ensures !(joined[i] == '/' && joined[i + 1] == '/') {
      if i < |first| - 1 {
        assert joined[i] == first[i] && joined[i + 1] == first[i + 1];
      } else if i == |first| - 1 {
        assert joined[i] == first[|first| - 1];
      } else if i == |first| {
        assert joined[i + 1] == more[0];
      } else {
        assert joined[i] == more[i - |first| - 1] && joined[i + 1] == more[i - |first|];
      }
    }
    assert joined[|joined| - 1] == more[|more| - 1];
    NormalizeNormal(joined);
  }

  /** An empty relative part leaves the directory as it is. */
  lemma JoinEmptyRelative()
    ensures JoinPath("/w", "") == "/w"
  {
    CollapseWithoutDoubleSlash("/w");
  }

  /** A relative part ending in '/' loses that '/'. */
  lemma JoinDropsTrailingSlash()
    ensures JoinPath("/w", "A/") == "/w/A"
  {
    assert "/w" + "/" + "A/" == "/w/A/";
    CollapseWithoutDoubleSlash("/w/A/");
    assert "/w/A/"[..4] == "/w/A";
  }

  /** A directory ending in '/' gives no double '/' at the join. */
  lemma JoinCollapsesSlashes()
    ensures JoinPath("/w/", "A") == "/w/A"
  {
    assert "/w/" + "/" + "A" == "/w//A";
    assert "/w//A"[1..] == "w//A" && "w//A"[1..] == "//A" && "//A"[1..] == "/A";
    CollapseWithoutDoubleSlash("/A");
    assert CollapseSlashes("//A") == "/A";
    assert CollapseSlashes("w//A") == "w/A";
    assert CollapseSlashes("/w//A") == "/w/A";
  }

  // ---------------------------------------------------------------------------
  // Decimal numbers (`"name" + i` for an int i >= 0)
  // ---------------------------------------------------------------------------

  function DigitChar(d: nat): (ch: char)
    requires d < 10
    ensures '0' <= ch <= '9'
  {
    ('0' as int + d) as char
  }

  predicate IsDigits(s: string)
  {
    forall i :: 0 <= i < |s| ==> '0' <= s[i] <= '9'
  }

  /** The decimal text of `n`, as Java renders a non-negative int. */
  function NatToString(n: nat): (s: string)
    ensures |s| >= 1 && IsDigits(s)
  {
    if n < 10 then [DigitChar(n)] else NatToString(n / 10) + [DigitChar(n % 10)]
  }

  function ParseDecimal(s: string): nat
    requires IsDigits(s)
  {
    if s == [] then 0 else 10 * ParseDecimal(s[..|s| - 1]) + (s[|s| - 1] as int - '0' as int)
  }

  lemma {:induction false} ParseNatToString(n: nat)
    ensures ParseDecimal(NatToString(n)) == n
  {
    if n >= 10 {
      ParseNatToString(n / 10);
      var s := NatToString(n);
      assert s[..|s| - 1] == NatToString(n / 10);
    }
  }

  /** Different numbers give different names under the same prefix. */
  lemma NumberedNamesDistinct(prefix: string, i: nat, j: nat)
    requires i != j
    ensures prefix + NatToString(i) != prefix + NatToString(j)
  {
    if prefix + NatToString(i) == prefix + NatToString(j) {
      assert (prefix + NatToString(i))[|prefix|..] == NatToString(i);
      assert (prefix + NatToString(j))[|prefix|..] == NatToString(j);
      ParseNatToString(i);
      ParseNatToString(j);
    }
  }

  /** The names `prefix + j` for `start <= j < end`. */
  ghost function NamesBetween(prefix: string, start: nat, end: nat): set<string>
    decreases end
  {
    if end <= start then {} else NamesBetween(prefix, start, end - 1) + {prefix + NatToString(end - 1)}
  }

  lemma {:induction false} NamesBetweenAreNumbered(prefix: string, start: nat, end: nat, n: nat)
    requires end <= n
    ensures prefix + NatToString(n) !in NamesBetween(prefix, start, end)
    decreases end
  {
    if end > start {
      NamesBetweenAreNumbered(prefix, start, end - 1, n);
      NumberedNamesDistinct(prefix, end - 1, n);
    }
  }

  /** The loop both `getNextTestName`s run: starting at `start`, skip every
      index whose name `prefix + index` is already taken. It stops, because
      the names of distinct indices are distinct and `names` is finite. */
  method FirstFreeIndex(names: set<string>, prefix: string, start: nat) returns (k: nat)
    ensures start <= k
    ensures prefix + NatToString(k) !in names
    ensures forall j :: start <= j < k ==> prefix + NatToString(j) in names
  {
    k := start;
    while prefix + NatToString(k) in names
      invariant start <= k
      invariant forall j :: start <= j < k ==> prefix + NatToString(j) in names
      invariant NamesBetween(prefix, start, k) <= names
      decreases names - NamesBetween(prefix, start, k)
    {
      NamesBetweenAreNumbered(prefix, start, k, k);
      k := k + 1;
    }
  }

  // ---------------------------------------------------------------------------
  // Line files: `Files.write(path, lines)` and `std::getline`
  // ---------------------------------------------------------------------------

  /** The content `Files.write` produces for a list of lines: each line
      followed by a line separator. */
  function Unlines(lines: seq<string>): string
  {
    if lines == [] then "" else lines[0] + "\n" + Unlines(lines[1..])
  }

  /** The lines `std::getline` reads from a content: the pieces between line
      breaks, without an empty piece after a final line break. */
  function ReadLines(content: string): seq<string>
  {
    if content == [] then []
    else
      var pieces := SplitAll(content, '\n');
      if pieces[|pieces| - 1] == "" then pieces[..|pieces| - 1] else pieces
  }

  predicate NoLineBreaks(lines: seq<string>)
  {
    forall i :: 0 <= i < |lines| ==> '\n' !in lines[i]
  }

  lemma {:induction false} SplitUnlines(lines: seq<string>)
    requires NoLineBreaks(lines)
    ensures SplitAll(Unlines(lines), '\n') == lines + [""]
  {
    if lines != [] {
      SplitUnlines(lines[1..]);
      SplitAllAfterPiece(lines[0], '\n', Unlines(lines[1..]));
      assert lines[0] + "\n" + Unlines(lines[1..]) == lines[0] + ['\n'] + Unlines(lines[1..]);
      assert [lines[0]] + (lines[1..] + [""]) == lines + [""];
    }
  }

  /** A file written line by line reads back as the same lines. */
  lemma ReadUnlines(lines: seq<string>)
    requires NoLineBreaks(lines)
    ensures ReadLines(Unlines(lines)) == lines
  {
    SplitUnlines(lines);
    if lines != [] {
      assert Unlines(lines) != [];
    }
  }

  /** Writing one more line appends that line and a line separator. */
  lemma {:induction false} UnlinesSnoc(lines: seq<string>, line: string)
    ensures Unlines(lines + [line]) == Unlines(lines) + line + "\n"
  {
    if lines != [] {
      assert (lines + [line])[1..] == lines[1..] + [line];
      UnlinesSnoc(lines[1..], line);
    }
  }

  /** No piece between separators holds the separator. */
  lemma {:induction false} SplitAllPiecesFree(s: string, c: char)
    ensures forall k :: 0 <= k < |SplitAll(s, c)| ==> c !in SplitAll(s, c)[k]
  {
    if s != [] {
      SplitAllPiecesFree(s[1..], c);
      var rest := SplitAll(s[1..], c);
      if s[0] != c {
        assert c !in [s[0]] + rest[0];
      }
    }
  }

  /** The lines `std::getline` reads hold no line break. */
  lemma ReadLinesNoBreaks(content: string)
    ensures NoLineBreaks(ReadLines(content))
  {
    SplitAllPiecesFree(content, '\n');
  }

  /** When `a` holds no `c`, the first `c` of `a + c + b` is the one after `a`. */
  lemma {:induction false} FirstIndexAfterFree(a: string, c: char, b: string)
    requires c !in a
    ensures FirstIndexOf(a + [c] + b, c) == |a|
  {
    if a != [] {
      assert (a + [c] + b)[1..] == a[1..] + [c] + b;
      FirstIndexAfterFree(a[1..], c, b);
    }
  }

  /** Pieces joined with a space give a non-empty token without spaces only
      when that token is the one piece. */
  lemma JoinIsToken(parts: seq<string>, token: string)
    requires token != "" && ' ' !in token
    ensures Join(" ", parts) == token <==> parts == [token]
  {
    if |parts| >= 2 {
      var joined := Join(" ", parts);
      assert joined[|parts[0]|] == ' ';
    }
  }

  // ---------------------------------------------------------------------------
  // Odd-token substitution: split at a marker, replace every odd-indexed
  // token, join with nothing in between
  // ---------------------------------------------------------------------------

  /** The tokens with every odd-indexed one replaced by its value under `f`
      and every even-indexed one kept verbatim. */
  function ReplacedOdd(tokens: seq<string>, f: string -> string): seq<string>
  {
    seq(|tokens|, i requires 0 <= i < |tokens| => if i % 2 == 1 then f(tokens[i]) else tokens[i])
  }

  /** The loop `for (i = 1; i < tokens.length; i += 2) tokens[i] = f(tokens[i])`
      of the three template substitutions. */
  method ReplaceOddTokens(tokens: seq<string>, f: string -> string) returns (r: seq<string>)
    ensures |r| == |tokens|
    ensures forall i :: 0 <= i < |r| && i % 2 == 0 ==> r[i] == tokens[i]
    ensures forall i :: 0 <= i < |r| && i % 2 == 1 ==> r[i] == f(tokens[i])
    ensures r == ReplacedOdd(tokens, f)
  {
    r := tokens;
    var i := 1;
    while i < |r|
      invariant 1 <= i <= |r| + 2 && i % 2 == 1
      invariant |r| == |tokens|
      invariant forall k :: 0 <= k < |r| ==> r[k] == if k % 2 == 1 && k < i then f(tokens[k]) else tokens[k]
    {
      r := r[i := f(r[i])];
      i := i + 2;
    }
  }

  /** `String.join("", tokens)` after the odd tokens of `s.split(c)` are
      replaced by `f`. */
  function SubstituteOdd(s: string, c: char, f: string -> string): string
  {
    Join("", ReplacedOdd(Split(s, c), f))
  }

  /** Text without the marker passes through unchanged. */
  lemma SubstituteWithoutMarker(s: string, c: char, f: string -> string)
    requires c !in s
    ensures SubstituteOdd(s, c, f) == s
  {
  }

  /** The tokens `split` yields for one marked key between two plain texts. */
  lemma SplitOneKey(a: string, c: char, key: string, b: string)
    requires c !in a && c !in key && c !in b && key != ""
    ensures Split(a + [c] + key + [c] + b, c) == if b == "" then [a, key] else [a, key, b]
  {
    var s := a + [c] + key + [c] + b;
    assert s == a + [c] + (key + [c] + b);
    SplitAllAfterPiece(a, c, key + [c] + b);
    SplitAllAfterPiece(key, c, b);
    SplitAllWithout(b, c);
    assert SplitAll(s, c) == [a, key, b];
    assert c in s by { assert s[|a|] == c; }
    if b == "" {
      assert [a, key, b][..2] == [a, key];
    } else {
      assert DropTrailingEmpty([a, key, b]) == [a, key, b];
    }
  }

  lemma JoinTwo(x: string, y: string)
    ensures Join("", [x, y]) == x + y
  {
    assert [x, y][1..] == [y];
  }

  lemma JoinThree(x: string, y: string, z: string)
    ensures Join("", [x, y, z]) == x + y + z
  {
    assert [x, y, z][1..] == [y, z];
    JoinTwo(y, z);
  }

  /** One marked key between two plain texts is replaced by its value and the
      texts around it are kept, including when the text after it is empty
      (where `split` drops the trailing empty token). */
  lemma SubstituteOneKey(a: string, c: char, key: string, b: string, f: string -> string)
    requires c !in a && c !in key && c !in b && key != ""
    ensures SubstituteOdd(a + [c] + key + [c] + b, c, f) == a + f(key) + b
  {
    SplitOneKey(a, c, key, b);
    var tokens := Split(a + [c] + key + [c] + b, c);
    var r := ReplacedOdd(tokens, f);
    if b == "" {
      assert r == [a, f(key)];
      JoinTwo(a, f(key));
      assert a + f(key) + b == a + f(key);
    } else {
      assert r == [a, f(key), b];
      JoinThree(a, f(key), b);
    }
  }
}
