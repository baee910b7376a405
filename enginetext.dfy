/**
 * The engine's pure string transforms: turning a block id into a Docker tag
 * component, naming a built image, and writing the Dockerfile of a block.
 */
module EngineText {
  import opened Types

  /**
   * strings.ToLower on one character, for every character whose lower case is
   * ASCII: 'A'..'Z', KELVIN SIGN (U+212A) and LATIN CAPITAL LETTER I WITH DOT
   * ABOVE (U+0130). Any other character either is its own lower case or
   * lowers to a non-ASCII character; both are treated alike below.
   */
  function LowerRune(c: char): char {
    if 'A' <= c <= 'Z' then (c as int + 32) as char
    else if c == '\U{212A}' then 'k'
    else if c == '\U{0130}' then 'i'
    else c
  }

  /** The characters `[a-z0-9._-]` allowed in the sanitized id. */
  predicate TagChar(c: char) {
    'a' <= c <= 'z' || '0' <= c <= '9' || c == '.' || c == '_' || c == '-'
  }

  predicate Alnum(c: char) {
    'a' <= c <= 'z' || '0' <= c <= '9'
  }

  /** Positions k and k + 1 both hold a hyphen. */
  predicate DashPair(s: string, k: int)
    requires 0 <= k < |s| - 1
  {
    s[k] == '-' && s[k + 1] == '-'
  }

  predicate NoDoubleDash(s: string) {
    forall k :: 0 <= k < |s| - 1 ==> !DashPair(s, k)
  }

  /**
   * What sanitizeForDockerTag promises: non-empty, only `[a-z0-9._-]`, starting
   * with a letter or digit, no run of two hyphens and no trailing hyphen.
   */
  predicate IsDockerTag(t: string) {
    |t| > 0 && Alnum(t[0]) && (forall k :: 0 <= k < |t| ==> TagChar(t[k]))
    && NoDoubleDash(t) && t[|t| - 1] != '-'
  }

  /** Lower-cases the id and replaces every character outside `[a-z0-9._-]` with a hyphen. */
  function ReplaceInvalid(s: string): (r: string)
    ensures |r| == |s|
    ensures forall k :: 0 <= k < |r| ==> TagChar(r[k])
    ensures (forall k :: 0 <= k < |s| ==> TagChar(s[k])) ==> r == s
  {
    seq(|s|, k requires 0 <= k < |s| => var c := LowerRune(s[k]); if TagChar(c) then c else '-')
  }

  /** Replaces every run of hyphens with a single hyphen. */
  function CollapseDashes(s: string): (r: string)
    ensures |r| <= |s|
    ensures |s| > 0 ==> |r| > 0 && r[0] == s[0] && r[|r| - 1] == s[|s| - 1]
    decreases |s|
  {
    if |s| <= 1 then s
    else
      var r := CollapseDashes(s[..|s| - 1]);
      if s[|s| - 1] == '-' && r[|r| - 1] == '-' then r else r + [s[|s| - 1]]
  }

  /** Collapsing leaves no two adjacent hyphens. */
  lemma {:induction false} CollapseLeavesNoDoubleDash(s: string)
    ensures NoDoubleDash(CollapseDashes(s))
    decreases |s|
  {
    if |s| > 1 {
      var c := s[|s| - 1];
      var rf := CollapseDashes(s[..|s| - 1]);
      CollapseLeavesNoDoubleDash(s[..|s| - 1]);
      var r := CollapseDashes(s);
      if !(c == '-' && rf[|rf| - 1] == '-') {
        assert r == rf + [c];
        forall k | 0 <= k < |r| - 1
          ensures !DashPair(r, k)
        {
          if k < |rf| - 1 {
            assert r[k] == rf[k] && r[k + 1] == rf[k + 1];
            assert !DashPair(rf, k);
          }
        }
      }
    }
  }

  /** Collapsing keeps a string of tag characters one. */
  lemma {:induction false} CollapseKeepsTagChars(s: string)
    requires forall k :: 0 <= k < |s| ==> TagChar(s[k])
    ensures forall k :: 0 <= k < |CollapseDashes(s)| ==> TagChar(CollapseDashes(s)[k])
    decreases |s|
  {
    if |s| > 1 {
      var front := s[..|s| - 1];
      assert forall k :: 0 <= k < |front| ==> TagChar(front[k]) by {
        forall k | 0 <= k < |front|
          ensures TagChar(front[k])
        {
          assert front[k] == s[k];
        }
      }
      CollapseKeepsTagChars(front);
    }
  }

  /** A string without adjacent hyphens is its own collapse. */
  lemma {:induction false} CollapseIdentity(s: string)
    requires NoDoubleDash(s)
    ensures CollapseDashes(s) == s
    decreases |s|
  {
    if |s| > 1 {
      var front := s[..|s| - 1];
      assert NoDoubleDash(front) by {
        forall k | 0 <= k < |front| - 1
          ensures !DashPair(front, k)
        {
          assert !DashPair(s, k);
        }
      }
      CollapseIdentity(front);
      assert !DashPair(s, |s| - 2);
      assert front + [s[|s| - 1]] == s;
    }
  }

  /** Drops the leading hyphens. */
  function TrimLeftDashes(s: string): (r: string)
    ensures |r| <= |s| && r == s[|s| - |r|..]
    ensures |r| > 0 ==> r[0] != '-'
    ensures forall k :: 0 <= k < |s| - |r| ==> s[k] == '-'
  {
    if |s| > 0 && s[0] == '-' then TrimLeftDashes(s[1..]) else s
  }

  /** Drops the trailing hyphens. */
  function TrimRightDashes(s: string): (r: string)
    ensures |r| <= |s| && r == s[..|r|]
    ensures |r| > 0 ==> r[|r| - 1] != '-'
    ensures forall k :: |r| <= k < |s| ==> s[k] == '-'
  {
    if |s| > 0 && s[|s| - 1] == '-' then TrimRightDashes(s[..|s| - 1]) else s
  }

  lemma SliceKeepsTagProperties(s: string, i: nat, j: nat, t: string)
    requires i <= j <= |s| && t == s[i..j]
    requires NoDoubleDash(s) && forall k :: 0 <= k < |s| ==> TagChar(s[k])
    ensures NoDoubleDash(t) && forall k :: 0 <= k < |t| ==> TagChar(t[k])
  {
    forall k | 0 <= k < |t| - 1
      ensures !DashPair(t, k)
    {
      assert t[k] == s[i + k] && t[k + 1] == s[i + k + 1];
      assert !DashPair(s, i + k);
    }
    forall k | 0 <= k < |t|
      ensures TagChar(t[k])
    {
      assert t[k] == s[i + k];
    }
  }

  /** strings.Trim(s, "-") on a string with only tag characters and no double hyphen. */
  function TrimDashes(s: string): (r: string)
    requires NoDoubleDash(s) && forall k :: 0 <= k < |s| ==> TagChar(s[k])
    ensures NoDoubleDash(r) && forall k :: 0 <= k < |r| ==> TagChar(r[k])
    ensures |r| > 0 ==> r[0] != '-' && r[|r| - 1] != '-'
  {
    var left := TrimLeftDashes(s);
    SliceKeepsTagProperties(s, |s| - |left|, |s|, left);
    var r := TrimRightDashes(left);
    SliceKeepsTagProperties(left, 0, |r|, r);
    r
  }

  lemma BlockIsDockerTag()
    ensures IsDockerTag("block")
  {
  }

  /** The `block-` prefix turns a trimmed id that starts with `.` or `_` into a valid tag. */
  lemma PrefixedIsDockerTag(x: string)
    requires |x| > 0 && x[0] != '-' && x[|x| - 1] != '-'
    requires NoDoubleDash(x) && forall k :: 0 <= k < |x| ==> TagChar(x[k])
    ensures IsDockerTag("block-" + x)
  {
    var t := "block-" + x;
    forall k | 0 <= k < |t|
      ensures TagChar(t[k])
    {
      if k >= 6 {
        assert t[k] == x[k - 6];
      }
    }
    forall k | 0 <= k < |t| - 1
      ensures !DashPair(t, k)
    {
      if k >= 6 {
        assert t[k] == x[k - 6] && t[k + 1] == x[k - 5];
        assert !DashPair(x, k - 6);
      } else if k == 5 {
        assert t[6] == x[0];
      }
    }
    assert t[|t| - 1] == x[|x| - 1];
  }

  /** Two valid tags joined by one hyphen form a valid tag. */
  lemma HyphenJoinIsDockerTag(a: string, b: string)
    requires IsDockerTag(a) && IsDockerTag(b)
    ensures IsDockerTag(a + "-" + b)
  {
    var t := a + "-" + b;
    var n := |a|;
    forall k | 0 <= k < |t|
      ensures TagChar(t[k])
    {
      if k < n {
        assert t[k] == a[k];
      } else if k > n {
        assert t[k] == b[k - n - 1];
      }
    }
    forall k | 0 <= k < |t| - 1
      ensures !DashPair(t, k)
    {
      if k < n - 1 {
        assert t[k] == a[k] && t[k + 1] == a[k + 1];
        assert !DashPair(a, k);
      } else if k == n - 1 {
        assert t[k] == a[n - 1];
      } else if k == n {
        assert t[k + 1] == b[0];
      } else {
        assert t[k] == b[k - n - 1] && t[k + 1] == b[k - n];
        assert !DashPair(b, k - n - 1);
      }
    }
    assert t[0] == a[0];
    assert t[|t| - 1] == b[|b| - 1];
  }

  /** sanitizeForDockerTag. */
  function SanitizeForDockerTag(id: string): (tag: string)
    ensures IsDockerTag(tag)
  {
    var replaced := ReplaceInvalid(id);
    CollapseLeavesNoDoubleDash(replaced);
    CollapseKeepsTagChars(replaced);
    var trimmed := TrimDashes(CollapseDashes(replaced));
    var nonEmpty := if trimmed == "" then "block" else trimmed;
    BlockIsDockerTag();
    if Alnum(nonEmpty[0]) then nonEmpty
    else
      PrefixedIsDockerTag(nonEmpty);
      "block-" + nonEmpty
  }

  /** Sanitizing leaves exactly the valid tags unchanged. */
  lemma SanitizeFixedPoints(t: string)
    ensures SanitizeForDockerTag(t) == t <==> IsDockerTag(t)
  {
    if IsDockerTag(t) {
      var r := ReplaceInvalid(t);
      assert r == t;
      CollapseIdentity(r);
      var c := CollapseDashes(r);
      assert c == t;
      assert TrimLeftDashes(t) == t;
      assert TrimRightDashes(t) == t;
      assert TrimDashes(c) == t;
    }
  }

  /** Sanitizing a sanitized id changes nothing. */
  lemma SanitizeIdempotent(id: string)
    ensures SanitizeForDockerTag(SanitizeForDockerTag(id)) == SanitizeForDockerTag(id)
  {
    SanitizeFixedPoints(SanitizeForDockerTag(id));
  }

  /** The tag of an image built at clock reading `now`: `dockstep-<sanitized id>-<unix seconds>`. */
  function ImageTag(id: string, now: nat): string {
    "dockstep-" + SanitizeForDockerTag(id) + "-" + Decimal(now)
  }

  lemma DecimalIsDockerTag(n: nat)
    ensures IsDockerTag(Decimal(n))
  {
    var d := Decimal(n);
    assert forall k :: 0 <= k < |d| ==> '0' <= d[k] <= '9';
  }

  lemma NamedTagIsDockerTag(s: string, d: string)
    requires IsDockerTag(s) && IsDockerTag(d)
    ensures IsDockerTag("dockstep-" + s + "-" + d)
  {
    var name := "dockstep";
    assert IsDockerTag(name) by {
      assert forall k :: 0 <= k < |name| ==> 'a' <= name[k] <= 'z';
    }
    HyphenJoinIsDockerTag(name, s);
    HyphenJoinIsDockerTag(name + "-" + s, d);
    assert name + "-" == "dockstep-";
  }

  /** An image tag obeys the same rules as the sanitized id inside it. */
  lemma ImageTagIsDockerTag(id: string, now: nat)
    ensures IsDockerTag(ImageTag(id, now))
  {
    DecimalIsDockerTag(now);
    NamedTagIsDockerTag(SanitizeForDockerTag(id), Decimal(now));
  }

  /** strings.Join(lines, "\n"). */
  function JoinLines(ls: seq<string>): string {
    if |ls| == 0 then ""
    else if |ls| == 1 then ls[0]
    else ls[0] + "\n" + JoinLines(ls[1..])
  }

  /** strings.Split(s, "\n"): the text between newlines, always at least one piece. */
  function SplitLines(s: string): (ls: seq<string>)
    ensures |ls| >= 1
  {
    if |s| == 0 then [""]
    else if s[0] == '\n' then [""] + SplitLines(s[1..])
    else
      var rest := SplitLines(s[1..]);
      [[s[0]] + rest[0]] + rest[1..]
  }

  predicate NoNewline(s: string) {
    forall k :: 0 <= k < |s| ==> s[k] != '\n'
  }

  /** The Dockerfile of a block: `FROM <parent>`, a blank line, then each instruction, one per line. */
  function Dockerfile(parentRef: string, instructions: seq<string>): string {
    JoinLines(["FROM " + parentRef, ""] + instructions)
  }

  lemma {:induction false} SplitLinesPrefix(w: string, t: string)
    requires NoNewline(w)
    ensures SplitLines(w + t) == [w + SplitLines(t)[0]] + SplitLines(t)[1..]
    decreases |w|
  {
    if |w| == 0 {
      assert w + t == t;
      var ls := SplitLines(t);
      assert w + ls[0] == ls[0];
      assert ls == [ls[0]] + ls[1..];
    } else {
      assert (w + t)[0] == w[0];
      assert (w + t)[1..] == w[1..] + t;
      SplitLinesPrefix(w[1..], t);
      assert [w[0]] + (w[1..] + SplitLines(t)[0]) == w + SplitLines(t)[0];
    }
  }

  /** Splitting the joined lines gives the lines back when none of them holds a newline. */
  lemma {:induction false} SplitJoinLines(ls: seq<string>)
    requires |ls| >= 1 && forall k :: 0 <= k < |ls| ==> NoNewline(ls[k])
    ensures SplitLines(JoinLines(ls)) == ls
    decreases |ls|
  {
    if |ls| == 1 {
      SplitLinesPrefix(ls[0], "");
      assert ls[0] + "" == ls[0];
    } else {
      var rest := JoinLines(ls[1..]);
      SplitJoinLines(ls[1..]);
      assert ("\n" + rest)[1..] == rest;
      assert SplitLines("\n" + rest) == [""] + ls[1..];
      assert JoinLines(ls) == ls[0] + ("\n" + rest);
      SplitLinesPrefix(ls[0], "\n" + rest);
      assert ls[0] + "" == ls[0];
      assert ls == [ls[0]] + ls[1..];
    }
  }

  /** Read line by line, the Dockerfile is the FROM line, a blank line and the instructions in order. */
  lemma DockerfileLines(parentRef: string, instructions: seq<string>)
    requires NoNewline(parentRef) && forall k :: 0 <= k < |instructions| ==> NoNewline(instructions[k])
    ensures SplitLines(Dockerfile(parentRef, instructions)) == ["FROM " + parentRef, ""] + instructions
  {
    var ls := ["FROM " + parentRef, ""] + instructions;
    assert NoNewline("FROM " + parentRef) by {
      assert forall k :: 5 <= k < |"FROM " + parentRef| ==> ("FROM " + parentRef)[k] == parentRef[k - 5];
    }
    assert forall k :: 2 <= k < |ls| ==> ls[k] == instructions[k - 2];
    SplitJoinLines(ls);
  }

  /** generateDockerfile: collects the lines in a list and joins them with newlines. */
  method GenerateDockerfile(b: Block, parentRef: string) returns (content: string)
    ensures content == Dockerfile(parentRef, b.instructions)
  {
    var lines := ["FROM " + parentRef];
    lines := lines + [""];
    for i := 0 to |b.instructions|
      invariant lines == ["FROM " + parentRef, ""] + b.instructions[..i]
    {
      lines := lines + [b.instructions[i]];
    }
    assert b.instructions[..|b.instructions|] == b.instructions;
    content := JoinLines(lines);
  }
}
