/**
 * The build-context side of `.dockerignore` (buildcontext/buildcontext.go):
 * converting a pattern to a glob, deciding whether a path is ignored (the
 * first matching pattern decides, `!` negates), and the walk of addToTar,
 * which skips an ignored path together with everything beneath it.
 *
 * filepath.Match is left abstract: a pattern and a path go in, and out comes
 * a match, no match, or a malformed-pattern error. Paths inside the context
 * are lists of directory-entry names; the source's "/"-joined relative path
 * is Slashed of that list.
 */
module BuildContext {
  import opened Types
  import opened Dockerignore

  // ---------------------------------------------------------------------------
  // convertToGlob
  // ---------------------------------------------------------------------------

  predicate EndsWithSlash(s: string) {
    |s| > 0 && s[|s| - 1] == '/'
  }

  /**
   * convertToGlob: a directory pattern (trailing "/") matches what is inside
   * it, and a pattern without any "/" is made to match below any directory.
   */
  function ConvertToGlob(pattern: string): (r: string)
    ensures '/' in r
    ensures EndsWithSlash(pattern) <==> r == pattern + "*"
    ensures '/' !in pattern <==> r == "**/" + pattern
    ensures ('/' in pattern && !EndsWithSlash(pattern)) <==> r == pattern
  {
    var p := if EndsWithSlash(pattern) then pattern + "*" else pattern;
    if !(|p| > 0 && p[0] == '/') && '/' !in p then "**/" + p else p
  }

  /** Converting a converted (non-empty) pattern again changes nothing. */
  lemma ConvertToGlobIdempotent(pattern: string)
    requires pattern != ""
    ensures ConvertToGlob(ConvertToGlob(pattern)) == ConvertToGlob(pattern)
  {
    var r := ConvertToGlob(pattern);
    if '/' !in pattern {
      assert r[|r| - 1] == pattern[|pattern| - 1];
    } else if EndsWithSlash(pattern) {
      assert r[|r| - 1] == '*';
    }
    assert '/' in r && !EndsWithSlash(r);
  }

  // ---------------------------------------------------------------------------
  // shouldIgnore
  // ---------------------------------------------------------------------------

  /** filepath.Match's answer: a match, no match, or a malformed pattern. */
  datatype MatchResult = Matched | NoMatch | BadPattern

  /**
   * What one pattern says about a path: nothing (blank, comment, no match or
   * malformed), or the decision — ignore for a plain pattern, keep for a
   * `!`-negated one.
   */
  function Verdict(pattern: string, path: string, matcher: (string, string) -> MatchResult): Option<bool> {
    var p := TrimSpace(pattern);
    if p == "" || p[0] == '#' then None
    else
      var negated := p[0] == '!';
      var body := if negated then p[1..] else p;
      if matcher(ConvertToGlob(body), path) == Matched then Some(!negated) else None
  }

  /** No pattern of the list decides anything about path. */
  function Undecided(path: string, patterns: seq<string>, matcher: (string, string) -> MatchResult): bool
    decreases |patterns|
  {
    |patterns| == 0 || (Verdict(patterns[0], path, matcher).None? && Undecided(path, patterns[1..], matcher))
  }

  /** The decision shouldIgnore reaches: that of the first pattern with one, or "keep". */
  function Ignored(path: string, patterns: seq<string>, matcher: (string, string) -> MatchResult): bool
    decreases |patterns|
  {
    if |patterns| == 0 then false
    else match Verdict(patterns[0], path, matcher)
      case Some(decision) => decision
      case None => Ignored(path, patterns[1..], matcher)
  }

  /** shouldIgnore: the pattern loop with its early return. */
  method ShouldIgnore(path: string, patterns: seq<string>, matcher: (string, string) -> MatchResult)
    returns (ignored: bool)
    ensures ignored == Ignored(path, patterns, matcher)
  {
    var i := 0;
    while i < |patterns|
      invariant 0 <= i <= |patterns|
      invariant Ignored(path, patterns, matcher) == Ignored(path, patterns[i..], matcher)
    {
      assert patterns[i..][0] == patterns[i] && patterns[i..][1..] == patterns[i + 1..];
      var pattern := TrimSpace(patterns[i]);
      i := i + 1;
      if pattern == "" || pattern[0] == '#' {
        continue;
      }
      var negated := false;
      if pattern[0] == '!' {
        negated := true;
        pattern := pattern[1..];
      }
      var globPattern := ConvertToGlob(pattern);
      var matched := matcher(globPattern, path);
      if matched == BadPattern {
        continue;
      }
      if matched == Matched {
        return !negated;
      }
    }
    return false;
  }

  /**
   * The first pattern that decides wins: a path is ignored exactly when some
   * pattern decides "ignore" and no earlier pattern decides anything.
   */
  lemma {:induction false} FirstDecisionWins(path: string, patterns: seq<string>, matcher: (string, string) -> MatchResult)
    ensures Ignored(path, patterns, matcher) <==>
      exists i :: 0 <= i < |patterns| && Verdict(patterns[i], path, matcher) == Some(true) &&
        forall j :: 0 <= j < i ==> Verdict(patterns[j], path, matcher).None?
    decreases |patterns|
  {
    hide Verdict;
    if |patterns| > 0 {
      var rest := patterns[1..];
      FirstDecisionWins(path, rest, matcher);
      if Verdict(patterns[0], path, matcher).None? {
        if Ignored(path, rest, matcher) {
          var i :| 0 <= i < |rest| && Verdict(rest[i], path, matcher) == Some(true) &&
            forall j :: 0 <= j < i ==> Verdict(rest[j], path, matcher).None?;
          assert patterns[i + 1] == rest[i];
          forall j | 0 <= j < i + 1 ensures Verdict(patterns[j], path, matcher).None? {
            if j > 0 {
              assert patterns[j] == rest[j - 1];
            }
          }
        }
        if exists i :: 0 <= i < |patterns| && Verdict(patterns[i], path, matcher) == Some(true) &&
             forall j :: 0 <= j < i ==> Verdict(patterns[j], path, matcher).None? {
          var i :| 0 <= i < |patterns| && Verdict(patterns[i], path, matcher) == Some(true) &&
            forall j :: 0 <= j < i ==> Verdict(patterns[j], path, matcher).None?;
          assert i > 0;
          assert rest[i - 1] == patterns[i];
          forall j | 0 <= j < i - 1 ensures Verdict(rest[j], path, matcher).None? {
            assert rest[j] == patterns[j + 1];
          }
        }
      }
    }
  }

  /** A blank or comment pattern decides nothing. */
  lemma SkippedVerdict(pattern: string, path: string, matcher: (string, string) -> MatchResult)
    requires TrimSpace(pattern) == "" || TrimSpace(pattern)[0] == '#'
    ensures Verdict(pattern, path, matcher) == None
  {
  }

  /** A pattern means the same trimmed as untrimmed. */
  lemma TrimmedVerdict(pattern: string, path: string, matcher: (string, string) -> MatchResult)
    ensures Verdict(TrimSpace(pattern), path, matcher) == Verdict(pattern, path, matcher)
  {
    TrimSpaceIdempotent(pattern);
  }

  /** The patterns in front decide first; only when none does, the rest decide. */
  lemma {:induction false} IgnoredAppend(path: string, a: seq<string>, b: seq<string>, matcher: (string, string) -> MatchResult)
    ensures Ignored(path, a + b, matcher) == (if Ignored(path, a, matcher) || !Undecided(path, a, matcher) then Ignored(path, a, matcher) else Ignored(path, b, matcher))
    decreases |a|
  {
    hide Verdict;
    if |a| > 0 {
      IgnoredAppend(path, a[1..], b, matcher);
      assert (a + b)[0] == a[0] && (a + b)[1..] == a[1..] + b;
    } else {
      assert a + b == b;
    }
  }

  lemma {:induction false} UndecidedAppend(path: string, a: seq<string>, b: seq<string>, matcher: (string, string) -> MatchResult)
    ensures Undecided(path, a + b, matcher) == (Undecided(path, a, matcher) && Undecided(path, b, matcher))
    decreases |a|
  {
    hide Verdict;
    if |a| > 0 {
      UndecidedAppend(path, a[1..], b, matcher);
      assert (a + b)[0] == a[0] && (a + b)[1..] == a[1..] + b;
    } else {
      assert a + b == b;
    }
  }

  /** Blank and comment patterns have no effect wherever they stand in the list. */
  lemma SkippedPatternsIrrelevant(path: string, a: seq<string>, c: string, b: seq<string>,
                                                      matcher: (string, string) -> MatchResult)
    requires TrimSpace(c) == "" || TrimSpace(c)[0] == '#'
    ensures Ignored(path, a + [c] + b, matcher) == Ignored(path, a + b, matcher)
  {
    SkippedVerdict(c, path, matcher);
    assert a + [c] + b == a + ([c] + b);
    IgnoredAppend(path, a, [c] + b, matcher);
    IgnoredAppend(path, a, b, matcher);
    assert ([c] + b)[1..] == b;
  }

  /** One line decides as its parsed form does. */
  lemma LinePatternDecidesAlike(path: string, line: string, matcher: (string, string) -> MatchResult)
    ensures Ignored(path, LinePattern(line), matcher) == Ignored(path, [line], matcher)
    ensures Undecided(path, LinePattern(line), matcher) == Undecided(path, [line], matcher)
  {
    hide Verdict, TrimSpace;
    TrimmedVerdict(line, path, matcher);
    if !Keep(TrimSpace(line)) {
      SkippedVerdict(line, path, matcher);
    }
    assert [line][1..] == [];
  }

  /** Matching against the parsed `.dockerignore` is the same as matching against its raw lines. */
  lemma {:induction false} IgnoredAfterParsing(path: string, lines: seq<string>, matcher: (string, string) -> MatchResult)
    ensures Ignored(path, Patterns(lines), matcher) == Ignored(path, lines, matcher)
    ensures Undecided(path, Patterns(lines), matcher) == Undecided(path, lines, matcher)
    decreases |lines|
  {
    hide Verdict, LinePattern, TrimSpace, Undecided;
    if |lines| > 0 {
      var front, last := lines[..|lines| - 1], lines[|lines| - 1];
      IgnoredAfterParsing(path, front, matcher);
      LinePatternDecidesAlike(path, last, matcher);
      IgnoredAppend(path, Patterns(front), LinePattern(last), matcher);
      UndecidedAppend(path, Patterns(front), LinePattern(last), matcher);
      assert lines == front + [last];
      IgnoredAppend(path, front, [last], matcher);
      UndecidedAppend(path, front, [last], matcher);
    }
  }

  // ---------------------------------------------------------------------------
  // addToTar
  // ---------------------------------------------------------------------------

  /** What addToTar sees on disk below the context directory. */
  datatype FileTree = File(name: string) | Dir(name: string, entries: seq<FileTree>)

  /** The ignore patterns and filepath.Match. */
  datatype Rules = Rules(patterns: seq<string>, matcher: (string, string) -> MatchResult)

  /** shouldIgnore on the relative path of a list of entry names. */
  predicate Skip(rel: seq<string>, rules: Rules) {
    Ignored(Slashed(rel), rules.patterns, rules.matcher)
  }

  /** The relative paths addToTar archives, in walk order, starting at `rel`. */
  function Archived(t: FileTree, rel: seq<string>, rules: Rules): seq<seq<string>>
    decreases t
  {
    if Skip(rel, rules) then []
    else [rel] + (if t.Dir? then ArchivedEntries(t.entries, rel, rules) else [])
  }

  function ArchivedEntries(es: seq<FileTree>, rel: seq<string>, rules: Rules): seq<seq<string>>
    decreases es
  {
    if |es| == 0 then []
    else ArchivedEntries(es[..|es| - 1], rel, rules) + Archived(es[|es| - 1], rel + [es[|es| - 1].name], rules)
  }

  /** Every relative path of the tree, in walk order, ignoring nothing. */
  function AllPaths(t: FileTree, rel: seq<string>): seq<seq<string>>
    decreases t
  {
    [rel] + (if t.Dir? then AllEntries(t.entries, rel) else [])
  }

  function AllEntries(es: seq<FileTree>, rel: seq<string>): seq<seq<string>>
    decreases es
  {
    if |es| == 0 then [] else AllEntries(es[..|es| - 1], rel) + AllPaths(es[|es| - 1], rel + [es[|es| - 1].name])
  }

  /** Neither x nor any of its ancestors from depth `from` down is ignored. */
  ghost predicate Visible(x: seq<string>, from: nat, rules: Rules) {
    forall k :: from <= k <= |x| ==> !Skip(x[..k], rules)
  }

  /** The paths of xs that are visible from depth `from`, in order. */
  ghost function FilterVisible(xs: seq<seq<string>>, from: nat, rules: Rules): seq<seq<string>> {
    if |xs| == 0 then []
    else FilterVisible(xs[..|xs| - 1], from, rules) + (if Visible(xs[|xs| - 1], from, rules) then [xs[|xs| - 1]] else [])
  }

  lemma {:induction false} FilterVisibleAppend(xs: seq<seq<string>>, ys: seq<seq<string>>, from: nat, rules: Rules)
    ensures FilterVisible(xs + ys, from, rules) == FilterVisible(xs, from, rules) + FilterVisible(ys, from, rules)
    decreases |ys|
  {
    if |ys| == 0 {
      assert xs + ys == xs;
    } else {
      var front := ys[..|ys| - 1];
      assert (xs + ys)[..|xs + ys| - 1] == xs + front;
      assert (xs + ys)[|xs + ys| - 1] == ys[|ys| - 1];
      FilterVisibleAppend(xs, front, from, rules);
    }
  }

  /** The filter keeps exactly the visible paths. */
  lemma {:induction false} FilterVisibleMember(xs: seq<seq<string>>, from: nat, rules: Rules)
    ensures forall x :: x in FilterVisible(xs, from, rules) <==> x in xs && Visible(x, from, rules)
    decreases |xs|
  {
    if |xs| > 0 {
      FilterVisibleMember(xs[..|xs| - 1], from, rules);
      assert xs == xs[..|xs| - 1] + [xs[|xs| - 1]];
    }
  }

  /** Paths under an ignored directory are all filtered out. */
  lemma {:induction false} FilterVisibleNone(xs: seq<seq<string>>, n: nat, rules: Rules)
    requires forall x :: x in xs ==> n <= |x| && Skip(x[..n], rules)
    ensures FilterVisible(xs, n, rules) == []
    decreases |xs|
  {
    hide Skip;
    if |xs| > 0 {
      var last := xs[|xs| - 1];
      assert last in xs;
      assert !Visible(last, n, rules);
      FilterVisibleNone(xs[..|xs| - 1], n, rules);
    }
  }

  /** Below a directory that is not ignored, visibility can be checked from one level deeper. */
  lemma {:induction false} FilterVisibleDeeper(xs: seq<seq<string>>, n: nat, rules: Rules)
    requires forall x :: x in xs ==> n < |x| && !Skip(x[..n], rules)
    ensures FilterVisible(xs, n, rules) == FilterVisible(xs, n + 1, rules)
    decreases |xs|
  {
    hide Skip;
    if |xs| > 0 {
      var last := xs[|xs| - 1];
      assert last in xs;
      assert Visible(last, n, rules) == Visible(last, n + 1, rules);
      FilterVisibleDeeper(xs[..|xs| - 1], n, rules);
    }
  }

  lemma {:induction false} AllPathsUnder(t: FileTree, rel: seq<string>)
    ensures forall x :: x in AllPaths(t, rel) ==> |rel| <= |x| && x[..|rel|] == rel
    decreases t, 0
  {
    if t.Dir? {
      AllEntriesUnder(t.entries, rel);
    }
  }

  /** The paths of an entry lie strictly below the directory holding it. */
  lemma ChildPathsUnder(e: FileTree, rel: seq<string>)
    ensures forall x :: x in AllPaths(e, rel + [e.name]) ==> |rel| < |x| && x[..|rel|] == rel
    decreases e, 1
  {
    var rel' := rel + [e.name];
    AllPathsUnder(e, rel');
    forall x | x in AllPaths(e, rel') ensures |rel| < |x| && x[..|rel|] == rel {
      assert x[..|rel|] == x[..|rel'|][..|rel|];
    }
  }

  lemma {:induction false} AllEntriesUnder(es: seq<FileTree>, rel: seq<string>)
    ensures forall x :: x in AllEntries(es, rel) ==> |rel| < |x| && x[..|rel|] == rel
    decreases es
  {
    if |es| > 0 {
      var e := es[|es| - 1];
      AllEntriesUnder(es[..|es| - 1], rel);
      ChildPathsUnder(e, rel);
    }
  }

  /**
   * The skip-subtree walk: addToTar archives exactly the paths of the tree
   * that are not ignored and lie under no ignored directory, in walk order.
   */
  lemma {:induction false} ArchivedIsFilter(t: FileTree, rel: seq<string>, rules: Rules)
    ensures Archived(t, rel, rules) == FilterVisible(AllPaths(t, rel), |rel|, rules)
    decreases t
  {
    hide Skip;
    if Skip(rel, rules) {
      AllPathsUnder(t, rel);
      FilterVisibleNone(AllPaths(t, rel), |rel|, rules);
    } else {
      var sub := if t.Dir? then AllEntries(t.entries, rel) else [];
      FilterVisibleAppend([rel], sub, |rel|, rules);
      assert FilterVisible([rel], |rel|, rules) == [rel] by {
        assert rel[..|rel|] == rel;
        assert Visible(rel, |rel|, rules);
        assert [rel][..0] == [];
      }
      if t.Dir? {
        EntriesAreFiltered(t.entries, rel, rules);
      }
    }
  }

  lemma {:induction false} EntriesAreFiltered(es: seq<FileTree>, rel: seq<string>, rules: Rules)
    requires !Skip(rel, rules)
    ensures ArchivedEntries(es, rel, rules) == FilterVisible(AllEntries(es, rel), |rel|, rules)
    decreases es
  {
    hide Skip;
    if |es| > 0 {
      var front, e := es[..|es| - 1], es[|es| - 1];
      var rel' := rel + [e.name];
      EntriesAreFiltered(front, rel, rules);
      FilterVisibleAppend(AllEntries(front, rel), AllPaths(e, rel'), |rel|, rules);
      ChildPathsUnder(e, rel);
      FilterVisibleDeeper(AllPaths(e, rel'), |rel|, rules);
      ArchivedIsFilter(e, rel', rules);
    }
  }

  /** The name of a path's tar entry: "." for the context root, else the relative path. */
  function HeaderName(rel: seq<string>): string {
    if |rel| == 0 then "." else Slashed(rel)
  }

  function HeaderNames(ps: seq<seq<string>>): seq<string> {
    seq(|ps|, i requires 0 <= i < |ps| => HeaderName(ps[i]))
  }

  lemma HeaderNamesAppend(a: seq<seq<string>>, b: seq<seq<string>>)
    ensures HeaderNames(a + b) == HeaderNames(a) + HeaderNames(b)
  {
  }

  /** The tar stream, reduced to the entry names written so far. */
  class TarWriter {
    var names: seq<string>

    constructor ()
      ensures names == []
    {
      names := [];
    }

    method WriteHeader(name: string)
      modifies this
      ensures names == old(names) + [name]
    {
      names := names + [name];
    }
  }

  /**
   * addToTar: skips an ignored path, otherwise writes its entry and, for a
   * directory, recurses into each entry in order. Each file's entry is named
   * by its path relative to the context root (see ArchivedNamesAsWritten for
   * the source's naming).
   */
  method AddToTar(tw: TarWriter, t: FileTree, rel: seq<string>, rules: Rules)
    modifies tw
    decreases t
    ensures tw.names == old(tw.names) + HeaderNames(Archived(t, rel, rules))
  {
    hide Ignored, Slashed, HeaderName;
    var ignored := ShouldIgnore(Slashed(rel), rules.patterns, rules.matcher);
    if ignored {
      return;
    }
    tw.WriteHeader(HeaderName(rel));
    if t.Dir? {
      var i := 0;
      while i < |t.entries|
        invariant 0 <= i <= |t.entries|
        invariant tw.names == old(tw.names) + HeaderNames([rel] + ArchivedEntries(t.entries[..i], rel, rules))
      {
        var entry := t.entries[i];
        assert t.entries[..i + 1][..i] == t.entries[..i];
        ghost var before := [rel] + ArchivedEntries(t.entries[..i], rel, rules);
        AddToTar(tw, entry, rel + [entry.name], rules);
        HeaderNamesAppend(before, Archived(entry, rel + [entry.name], rules));
        i := i + 1;
      }
      assert t.entries[..i] == t.entries;
    }
  }

  // ---------------------------------------------------------------------------
  // Entry names: the source's naming and the intended one
  // ---------------------------------------------------------------------------

  /**
   * The entry names addToTar writes as the source has it: the root is ".",
   * a directory keeps its relative path, but every file — at any depth — is
   * named by its last component alone.
   */
  function ArchivedNamesAsWritten(t: FileTree, rel: seq<string>, rules: Rules): seq<string>
    decreases t
  {
    if Skip(rel, rules) then []
    else
      var name := if |rel| == 0 then "." else if t.Dir? then Slashed(rel) else rel[|rel| - 1];
      [name] + (if t.Dir? then EntryNamesAsWritten(t.entries, rel, rules) else [])
  }

  function EntryNamesAsWritten(es: seq<FileTree>, rel: seq<string>, rules: Rules): seq<string>
    decreases es
  {
    if |es| == 0 then []
    else EntryNamesAsWritten(es[..|es| - 1], rel, rules) + ArchivedNamesAsWritten(es[|es| - 1], rel + [es[|es| - 1].name], rules)
  }

  /** Two directories that each hold a file called x. */
  const SameBaseNames: FileTree := Dir("context", [Dir("a", [File("x")]), Dir("b", [File("x")])])

  /** No ignore patterns at all. */
  const NoPatterns: Rules := Rules([], (glob, path) => NoMatch)

  lemma NothingSkipped(rel: seq<string>)
    ensures !Skip(rel, NoPatterns)
  {
  }

  lemma ArchivedSameBaseNames()
    ensures Archived(SameBaseNames, [], NoPatterns) == [[], ["a"], ["a", "x"], ["b"], ["b", "x"]]
  {
    forall rel: seq<string> ensures !Skip(rel, NoPatterns) {
      NothingSkipped(rel);
    }
    hide Skip;
    var a, b := Dir("a", [File("x")]), Dir("b", [File("x")]);
    assert [a, b][..1] == [a] && [a][..0] == [] && [File("x")][..0] == [];
    assert ["a"] + ["x"] == ["a", "x"] && ["b"] + ["x"] == ["b", "x"];
    assert [] + ["a"] == ["a"] && [] + ["b"] == ["b"];
    assert Archived(a, ["a"], NoPatterns) == [["a"], ["a", "x"]];
    assert Archived(b, ["b"], NoPatterns) == [["b"], ["b", "x"]];
    assert ArchivedEntries([a], [], NoPatterns) == [["a"], ["a", "x"]];
    assert ArchivedEntries([a, b], [], NoPatterns) == [["a"], ["a", "x"], ["b"], ["b", "x"]];
  }

  lemma NamesAsWrittenSameBaseNames()
    ensures ArchivedNamesAsWritten(SameBaseNames, [], NoPatterns) == [".", "a", "x", "b", "x"]
  {
    forall rel: seq<string> ensures !Skip(rel, NoPatterns) {
      NothingSkipped(rel);
    }
    assert Slashed(["a"]) == "a" && Slashed(["b"]) == "b";
    hide Skip, Slashed;
    var a, b := Dir("a", [File("x")]), Dir("b", [File("x")]);
    assert [a, b][..1] == [a] && [a][..0] == [] && [File("x")][..0] == [];
    assert [] + ["a"] == ["a"] && [] + ["b"] == ["b"];
    assert ArchivedNamesAsWritten(a, ["a"], NoPatterns) == ["a", "x"];
    assert ArchivedNamesAsWritten(b, ["b"], NoPatterns) == ["b", "x"];
    assert EntryNamesAsWritten([a], [], NoPatterns) == ["a", "x"];
  }

  /**
   * As written, a/x and b/x are both archived under the name "x": the
   * archive has two entries with one name, neither in its directory.
   */
  lemma BaseNameCollision()
    ensures ArchivedNamesAsWritten(SameBaseNames, [], NoPatterns) == [".", "a", "x", "b", "x"]
    ensures HeaderNames(Archived(SameBaseNames, [], NoPatterns)) == [".", "a", "a/x", "b", "b/x"]
  {
    NamesAsWrittenSameBaseNames();
    ArchivedSameBaseNames();
    assert Slashed(["a", "x"]) == "a/x" && Slashed(["b", "x"]) == "b/x";
  }

  /** A directory-entry name as the file system gives it: no separator, not "." or "..". */
  predicate CleanName(n: string) {
    n != "" && n != "." && n != ".." && '/' !in n
  }

  ghost predicate CleanPath(x: seq<string>) {
    forall k :: 0 <= k < |x| ==> CleanName(x[k])
  }

  /** Entry names are clean and, within one directory, distinct. */
  ghost predicate CleanEntries(es: seq<FileTree>)
    decreases es
  {
    && (forall i :: 0 <= i < |es| ==> CleanName(es[i].name) && (es[i].Dir? ==> CleanEntries(es[i].entries)))
    && (forall i, j :: 0 <= i < j < |es| ==> es[i].name != es[j].name)
  }

  ghost predicate Distinct<T>(xs: seq<T>) {
    forall i, j :: 0 <= i < j < |xs| ==> xs[i] != xs[j]
  }

  /** Index of the first "/" in s, or |s|. */
  function FirstSlash(s: string): (r: nat)
    ensures r <= |s|
    ensures forall k :: 0 <= k < r ==> s[k] != '/'
    ensures r < |s| ==> s[r] == '/'
  {
    if |s| == 0 || s[0] == '/' then 0 else 1 + FirstSlash(s[1..])
  }

  /** A joined clean path starts with its first component, followed by "/" and the rest. */
  lemma SlashedShape(x: seq<string>)
    requires |x| > 0 && CleanPath(x)
    ensures |x[0]| <= |Slashed(x)| && Slashed(x)[..|x[0]|] == x[0]
    ensures FirstSlash(Slashed(x)) == |x[0]|
    ensures |x| == 1 <==> |Slashed(x)| == |x[0]|
    ensures |x| > 1 ==> Slashed(x)[|x[0]| + 1..] == Slashed(x[1..])
  {
    assert CleanName(x[0]);
    if |x| > 1 {
      var s := Slashed(x);
      assert s == x[0] + "/" + Slashed(x[1..]);
      assert s[..|x[0]|] == x[0];
      assert s[|x[0]|] == '/';
    }
  }

  lemma {:induction false} SlashedInjective(a: seq<string>, b: seq<string>)
    requires |a| > 0 && |b| > 0 && CleanPath(a) && CleanPath(b) && Slashed(a) == Slashed(b)
    ensures a == b
    decreases |a|
  {
    SlashedShape(a);
    SlashedShape(b);
    assert a[0] == b[0];
    if |a| > 1 {
      SlashedInjective(a[1..], b[1..]);
      assert a == [a[0]] + a[1..] && b == [b[0]] + b[1..];
    } else {
      assert a == [a[0]] && b == [b[0]];
    }
  }

  /** Clean paths have distinct entry names. */
  lemma HeaderNameInjective(a: seq<string>, b: seq<string>)
    requires CleanPath(a) && CleanPath(b)
    ensures HeaderName(a) == HeaderName(b) <==> a == b
  {
    if |a| > 0 {
      SlashedShape(a);
      assert CleanName(a[0]);
    }
    if |b| > 0 {
      SlashedShape(b);
      assert CleanName(b[0]);
    }
    if |a| > 0 && |b| > 0 && Slashed(a) == Slashed(b) {
      SlashedInjective(a, b);
    }
  }

  /** The names of a directory's entries. */
  function EntryNames(es: seq<FileTree>): set<string> {
    set i | 0 <= i < |es| :: es[i].name
  }

  lemma DistinctAppend<T>(xs: seq<T>, ys: seq<T>)
    requires Distinct(xs) && Distinct(ys)
    requires forall x :: x in xs ==> x !in ys
    ensures Distinct(xs + ys)
  {
    forall i, j | 0 <= i < j < |xs + ys| ensures (xs + ys)[i] != (xs + ys)[j] {
      if i < |xs| <= j {
        assert (xs + ys)[i] == xs[i] && xs[i] in xs;
        assert (xs + ys)[j] == ys[j - |xs|];
      } else if |xs| <= i {
        assert (xs + ys)[i] == ys[i - |xs|] && (xs + ys)[j] == ys[j - |xs|];
      }
    }
  }

  lemma {:induction false} AllPathsDistinct(t: FileTree, rel: seq<string>)
    requires t.Dir? ==> CleanEntries(t.entries)
    ensures Distinct(AllPaths(t, rel))
    ensures forall x :: x in AllPaths(t, rel) ==> |rel| <= |x| && CleanPath(x[|rel|..])
    decreases t, 0
  {
    assert rel[|rel|..] == [];
    if t.Dir? {
      AllEntriesDistinct(t.entries, rel);
      DistinctAppend([rel], AllEntries(t.entries, rel));
    }
  }

  /** The paths below an entry all continue with the entry's name and clean components. */
  lemma {:induction false} PathsBelowEntry(e: FileTree, rel: seq<string>)
    requires CleanName(e.name) && (e.Dir? ==> CleanEntries(e.entries))
    ensures Distinct(AllPaths(e, rel + [e.name]))
    ensures forall y :: y in AllPaths(e, rel + [e.name]) ==>
      |rel| < |y| && y[|rel|] == e.name && CleanPath(y[|rel|..])
    decreases e, 1
  {
    var rel' := rel + [e.name];
    AllPathsDistinct(e, rel');
    AllPathsUnder(e, rel');
    forall y | y in AllPaths(e, rel') ensures |rel| < |y| && y[|rel|] == e.name && CleanPath(y[|rel|..]) {
      assert y[..|rel'|] == rel';
      assert y[|rel|] == rel'[|rel|];
      assert y[|rel|..] == [e.name] + y[|rel'|..];
    }
  }

  lemma {:induction false} AllEntriesDistinct(es: seq<FileTree>, rel: seq<string>)
    requires CleanEntries(es)
    ensures Distinct(AllEntries(es, rel))
    ensures forall x :: x in AllEntries(es, rel) ==> |rel| < |x| && x[|rel|] in EntryNames(es) && CleanPath(x[|rel|..])
    decreases es
  {
    if |es| > 0 {
      var front, e := es[..|es| - 1], es[|es| - 1];
      assert CleanEntries(front) by {
        forall i | 0 <= i < |front| ensures front[i] == es[i] {}
      }
      AllEntriesDistinct(front, rel);
      PathsBelowEntry(e, rel);
      assert EntryNames(front) <= EntryNames(es) by {
        forall i | 0 <= i < |front| ensures front[i].name in EntryNames(es) {
          assert front[i] == es[i];
        }
      }
      assert e.name in EntryNames(es) && e.name !in EntryNames(front);
      DistinctAppend(AllEntries(front, rel), AllPaths(e, rel + [e.name]));
    }
  }

  /** Filtering keeps distinct paths distinct. */
  lemma {:induction false} FilterVisibleDistinct(xs: seq<seq<string>>, from: nat, rules: Rules)
    requires Distinct(xs)
    ensures Distinct(FilterVisible(xs, from, rules))
    decreases |xs|
  {
    if |xs| > 0 {
      var front, last := xs[..|xs| - 1], xs[|xs| - 1];
      FilterVisibleDistinct(front, from, rules);
      FilterVisibleMember(front, from, rules);
      assert last !in front;
    }
  }

  /**
   * With the intended naming, no two archived entries share a name, whatever
   * the patterns.
   */
  lemma CorrectedNamesDistinct(t: FileTree, rules: Rules)
    requires t.Dir? ==> CleanEntries(t.entries)
    ensures Distinct(HeaderNames(Archived(t, [], rules)))
  {
    var ps := Archived(t, [], rules);
    ArchivedIsFilter(t, [], rules);
    AllPathsDistinct(t, []);
    FilterVisibleDistinct(AllPaths(t, []), 0, rules);
    FilterVisibleMember(AllPaths(t, []), 0, rules);
    forall i, j | 0 <= i < j < |ps| ensures HeaderName(ps[i]) != HeaderName(ps[j]) {
      assert ps[i] in ps && ps[j] in ps;
      assert ps[i][0..] == ps[i] && ps[j][0..] == ps[j];
      HeaderNameInjective(ps[i], ps[j]);
    }
  }
}
