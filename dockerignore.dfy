/**
 * `.dockerignore` parsing (buildcontext/dockerignore.go): the file is read
 * line by line, each line is trimmed of white space, and blank lines and
 * `#` comments are dropped; everything else becomes a pattern, in file order.
 * Opening or reading the file can fail, which yields an error and no patterns.
 */
module Dockerignore {
  import opened Types

  /** unicode.IsSpace: the Latin-1 spaces and the characters with the White_Space property above them. */
  predicate IsSpace(c: char) {
    || c == ' ' || '\t' <= c <= '\r' || c == '\U{85}' || c == '\U{A0}' || c == '\U{1680}'
    || '\U{2000}' <= c <= '\U{200A}' || c == '\U{2028}' || c == '\U{2029}' || c == '\U{202F}'
    || c == '\U{205F}' || c == '\U{3000}'
  }

  /** The suffix of s left after dropping its leading white space. */
  function TrimLeft(s: string): (r: string)
    ensures |r| <= |s| && r == s[|s| - |r|..]
    ensures |r| > 0 ==> !IsSpace(r[0])
  {
    if |s| > 0 && IsSpace(s[0]) then TrimLeft(s[1..]) else s
  }

  /** The prefix of s left after dropping its trailing white space. */
  function TrimRight(s: string): (r: string)
    ensures |r| <= |s| && r == s[..|r|]
    ensures |r| > 0 ==> !IsSpace(r[|r| - 1])
  {
    if |s| > 0 && IsSpace(s[|s| - 1]) then TrimRight(s[..|s| - 1]) else s
  }

  lemma {:induction false} TrimLeftDropsSpaces(s: string)
    ensures forall k :: 0 <= k < |s| - |TrimLeft(s)| ==> IsSpace(s[k])
    decreases |s|
  {
    if |s| > 0 && IsSpace(s[0]) {
      TrimLeftDropsSpaces(s[1..]);
      forall k | 1 <= k < |s| - |TrimLeft(s)| ensures IsSpace(s[k]) {
        assert s[k] == s[1..][k - 1];
      }
    }
  }

  lemma {:induction false} TrimRightDropsSpaces(s: string)
    ensures forall k :: |TrimRight(s)| <= k < |s| ==> IsSpace(s[k])
    decreases |s|
  {
    if |s| > 0 && IsSpace(s[|s| - 1]) {
      TrimRightDropsSpaces(s[..|s| - 1]);
    }
  }

  /** strings.TrimSpace. */
  function TrimSpace(s: string): string {
    TrimRight(TrimLeft(s))
  }

  /** Where TrimSpace's result starts in its argument. */
  function LeadingSpace(s: string): nat
    requires |TrimLeft(s)| <= |s|
  {
    |s| - |TrimLeft(s)|
  }

  /**
   * TrimSpace removes exactly the white space at both ends: what is left is
   * a contiguous part of s that neither starts nor ends with white space, and
   * everything cut off is white space.
   */
  lemma TrimSpaceSpec(s: string)
    ensures var r, i := TrimSpace(s), LeadingSpace(s);
      && i + |r| <= |s| && r == s[i..i + |r|]
      && (|r| > 0 ==> !IsSpace(r[0]) && !IsSpace(r[|r| - 1]))
      && (forall k :: 0 <= k < i ==> IsSpace(s[k]))
      && (forall k :: i + |r| <= k < |s| ==> IsSpace(s[k]))
  {
    hide TrimLeft, TrimRight;
    var left := TrimLeft(s);
    var r := TrimRight(left);
    var i := |s| - |left|;
    TrimLeftDropsSpaces(s);
    TrimRightDropsSpaces(left);
    assert r == s[i..i + |r|];
    forall k | i + |r| <= k < |s| ensures IsSpace(s[k]) {
      assert s[k] == left[k - i];
    }
  }

  /** Trimming twice is trimming once. */
  lemma TrimSpaceIdempotent(s: string)
    ensures TrimSpace(TrimSpace(s)) == TrimSpace(s)
  {
    var r := TrimSpace(s);
    if |r| > 0 {
      assert TrimLeft(r) == r;
      assert TrimRight(r) == r;
    }
  }

  /** A trimmed line the parser keeps: not blank and not a comment. */
  predicate Keep(line: string) {
    line != "" && line[0] != '#'
  }

  /** What one line contributes: its trimmed text, unless that is blank or a comment. */
  function LinePattern(line: string): seq<string> {
    var t := TrimSpace(line);
    if Keep(t) then [t] else []
  }

  /** The patterns a fully read file yields. */
  function Patterns(lines: seq<string>): seq<string> {
    if |lines| == 0 then [] else Patterns(lines[..|lines| - 1]) + LinePattern(lines[|lines| - 1])
  }

  /** Lines are filtered independently and in order: the patterns of a + b are those of a, then those of b. */
  lemma {:induction false} PatternsAppend(a: seq<string>, b: seq<string>)
    ensures Patterns(a + b) == Patterns(a) + Patterns(b)
    decreases |b|
  {
    if |b| == 0 {
      assert a + b == a;
    } else {
      var front := b[..|b| - 1];
      assert (a + b)[..|a + b| - 1] == a + front;
      assert (a + b)[|a + b| - 1] == b[|b| - 1];
      PatternsAppend(a, front);
      assert Patterns(a + b) == Patterns(a) + Patterns(front) + LinePattern(b[|b| - 1]);
    }
  }

  /** Every pattern is trimmed, non-empty and not a comment. */
  lemma {:induction false} PatternsClean(lines: seq<string>)
    ensures forall p :: p in Patterns(lines) ==> p != "" && p[0] != '#' && TrimSpace(p) == p
    decreases |lines|
  {
    if |lines| > 0 {
      PatternsClean(lines[..|lines| - 1]);
      TrimSpaceIdempotent(lines[|lines| - 1]);
    }
  }

  /** What the parser is given: a file it cannot open, or the lines it read and the scanner's final error. */
  datatype TextFile =
    | Unopenable(openError: string)
    | Scanned(lines: seq<string>, scanError: Option<string>)

  /** ParseDockerignore: the scanner loop, then the scanner's error check. */
  method ParseDockerignore(file: TextFile) returns (r: Result<seq<string>, string>)
    ensures file.Unopenable? ==> r == Err(file.openError)
    ensures file.Scanned? && file.scanError.Some? ==>
      r == Err("error reading .dockerignore: " + file.scanError.value)
    ensures file.Scanned? && file.scanError.None? ==> r == Ok(Patterns(file.lines))
  {
    if file.Unopenable? {
      return Err(file.openError);
    }
    var patterns: seq<string> := [];
    var i := 0;
    while i < |file.lines|
      invariant 0 <= i <= |file.lines|
      invariant patterns == Patterns(file.lines[..i])
    {
      var line := TrimSpace(file.lines[i]);
      assert file.lines[..i + 1][..i] == file.lines[..i];
      i := i + 1;
      if line == "" || line[0] == '#' {
        continue;
      }
      patterns := patterns + [line];
    }
    if file.scanError.Some? {
      return Err("error reading .dockerignore: " + file.scanError.value);
    }
    assert file.lines[..i] == file.lines;
    return Ok(patterns);
  }
}
