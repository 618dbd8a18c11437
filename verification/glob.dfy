/**
 * The glob tool (internal/tool/glob.go): list the files matching a pattern. A pattern with
 * "**" is split there, and the files below the directory before it are matched against the
 * rest; any other pattern goes to filepath.Glob. Decoding the JSON arguments, the working
 * directory, filepath.Glob, filepath.Match and the tree found at a path are parameters.
 */
module Glob {
  import opened Wrappers
  import opened Text
  import opened FilePath
  import opened FileTree

  const MaxGlobResults: nat := 1000

  const Notice: string := "\n\n[truncated \U{2014} showing first 1000 of more results]"

  datatype GlobParams = GlobParams(pattern: string, path: string)

  // ---------------------------------------------------------------------------------------
  // The pattern split

  /** strings.SplitN(s, sep, 2): the text before the first `sep` and the text after it, or `s` alone. */
  function SplitOnce(s: string, sep: string): (parts: seq<string>)
    requires sep != ""
    ensures |parts| == 1 || |parts| == 2
    ensures |parts| == 1 <==> !Contains(s, sep)
    ensures |parts| == 1 ==> parts[0] == s
    ensures |parts| == 2 ==> s == parts[0] + sep + parts[1]
    ensures |parts| == 2 ==> forall j :: 0 <= j < |parts[0]| ==> !OccursAt(s, sep, j)
  {
    var i := Index(s, sep);
    if i == -1 then [s]
    else
      assert s == s[..i] + s[i..i + |sep|] + s[i + |sep|..];
      [s[..i], s[i + |sep|..]]
  }

  /** Where recursiveGlob walks and the pattern it matches the files there against. */
  datatype Split = Split(root: string, suffix: string)

  /**
   * recursiveGlob's split at the first "**": the separators after it are dropped from the
   * suffix and those before it from the prefix, which is joined onto the root. On Unix the
   * separator is "/", so each trim is applied twice.
   */
  function SplitPattern(root: string, pattern: string): Split {
    var parts := SplitOnce(pattern, "**");
    var prefix := parts[0];
    var suffix := if |parts| > 1 then TrimPrefix(TrimPrefix(parts[1], "/"), "/") else "";
    if prefix != "" then Split(Join2(root, TrimSuffix(TrimSuffix(prefix, "/"), "/")), suffix)
    else Split(root, suffix)
  }

  // ---------------------------------------------------------------------------------------
  // The walk

  /** filepath.Rel from the walk root to an entry of the directory at `rel`. */
  function RelChild(rel: string, name: string): string {
    if rel == "." then name else rel + "/" + name
  }

  /** Whether a file is listed: no suffix, or the suffix matches its name or its path from the root. */
  predicate Collects(name: string, rel: string, suffix: string, glob: Matcher) {
    suffix == "" || glob(suffix, name) || glob(suffix, rel)
  }

  /** The paths the walk has collected after visiting `n`, starting from `acc`. */
  function Globbed(n: Node, path: string, rel: string, isRoot: bool, suffix: string, glob: Matcher, acc: seq<string>): Walk
    decreases n, 1
  {
    if |acc| >= 2 * MaxGlobResults then Walk(acc, true)
    else
      match n
      case Dir(name, children) =>
        if HasPrefix(name, ".") && !isRoot then Walk(acc, false)
        else GlobbedAll(n, |children|, path, rel, suffix, glob, acc)
      case File(name, _, _, _) =>
        if Collects(name, rel, suffix, glob) then Walk(acc + [path], false) else Walk(acc, false)
  }

  /** The same for the first `k` entries of a directory. */
  function GlobbedAll(dir: Node, k: nat, path: string, rel: string, suffix: string, glob: Matcher, acc: seq<string>): Walk
    requires dir.Dir? && k <= |dir.children|
    decreases dir, 0, k
  {
    if k == 0 then Walk(acc, false)
    else
      var w := GlobbedAll(dir, k - 1, path, rel, suffix, glob, acc);
      if w.stopped then w
      else
        var c := dir.children[k - 1];
        Globbed(c, ChildPath(path, c.name), RelChild(rel, c.name), false, suffix, glob, w.matches)
  }

  /** The walk of one recursiveGlob call: `matches` is the slice the callback appends to. */
  class Collector {
    const suffix: string
    const glob: Matcher
    var matches: seq<string>

    constructor (suffix: string, glob: Matcher)
      ensures this.suffix == suffix && this.glob == glob && matches == []
    {
      this.suffix, this.glob, matches := suffix, glob, [];
    }

    method Visit(n: Node, path: string, rel: string, isRoot: bool) returns (stop: bool)
      modifies this
      decreases n, 1
      ensures Walk(matches, stop) == Globbed(n, path, rel, isRoot, suffix, glob, old(matches))
    {
      if |matches| >= 2 * MaxGlobResults {
        return true;
      }
      if n.Dir? && HasPrefix(n.name, ".") && !isRoot {
        return false;
      }
      if n.Dir? {
        stop := VisitChildren(n, path, rel);
        return;
      }
      if suffix == "" {
        matches := matches + [path];
        return false;
      }
      if glob(suffix, n.name) {
        matches := matches + [path];
        return false;
      }
      if glob(suffix, rel) {
        matches := matches + [path];
      }
      return false;
    }

    method VisitChildren(dir: Node, path: string, rel: string) returns (stop: bool)
      requires dir.Dir?
      modifies this
      decreases dir, 0
      ensures Walk(matches, stop) == GlobbedAll(dir, |dir.children|, path, rel, suffix, glob, old(matches))
    {
      ghost var acc := matches;
      stop := false;
      var i := 0;
      while i < |dir.children|
        invariant i <= |dir.children|
        invariant Walk(matches, false) == GlobbedAll(dir, i, path, rel, suffix, glob, acc)
      {
        var c := dir.children[i];
        GlobbedAllStep(dir, i, path, rel, suffix, glob, acc);
        stop := Visit(c, ChildPath(path, c.name), RelChild(rel, c.name), false);
        i := i + 1;
        if stop {
          GlobbedStops(dir, i, |dir.children|, path, rel, suffix, glob, acc);
          return;
        }
      }
    }
  }

  /** What recursiveGlob returns: nothing when there is nothing at the walk root. */
  function RecursiveMatches(root: string, pattern: string, tree: string -> Option<Node>, glob: Matcher): seq<string> {
    var split := SplitPattern(root, pattern);
    match tree(split.root)
    case None => []
    case Some(n) => Globbed(n, split.root, ".", true, split.suffix, glob, []).matches
  }

  method RecursiveGlob(root: string, pattern: string, tree: string -> Option<Node>, glob: Matcher) returns (matches: seq<string>)
    ensures matches == RecursiveMatches(root, pattern, tree, glob)
  {
    var split := SplitPattern(root, pattern);
    var found := tree(split.root);
    if found.None? {
      return [];
    }
    var collector := new Collector(split.suffix, glob);
    var _ := collector.Visit(found.value, split.root, ".", true);
    matches := collector.matches;
  }

  // ---------------------------------------------------------------------------------------
  // Execute

  function Report(pattern: string, matches: seq<string>): string {
    if matches == [] then "No files matched the pattern: " + pattern
    else if |matches| > MaxGlobResults then Join(matches[..MaxGlobResults], "\n") + Notice
    else Join(matches, "\n")
  }

  /** What Execute returns; `simple` is filepath.Glob. */
  function Result(params: Result<GlobParams>, wd: Result<string>, tree: string -> Option<Node>, simple: string -> Result<seq<string>>, glob: Matcher): string {
    if params.Err? then "Error: invalid parameters: " + params.error
    else
      var p := params.value;
      if p.pattern == "" then "Error: pattern is required"
      else if p.path == "" && wd.Err? then "Error: " + wd.error
      else
        var dir := if p.path != "" then p.path else wd.value;
        if Contains(p.pattern, "**") then Report(p.pattern, RecursiveMatches(dir, p.pattern, tree, glob))
        else
          match simple(Join2(dir, p.pattern))
          case Err(e) => "Error: invalid pattern: " + e
          case Ok(matches) => Report(p.pattern, matches)
  }

  method Execute(params: Result<GlobParams>, wd: Result<string>, tree: string -> Option<Node>, simple: string -> Result<seq<string>>, glob: Matcher)
    returns (result: string)
    ensures result == Result(params, wd, tree, simple, glob)
  {
    if params.Err? {
      return "Error: invalid parameters: " + params.error;
    }
    var p := params.value;
    if p.pattern == "" {
      return "Error: pattern is required";
    }
    var dir := p.path;
    if dir == "" {
      if wd.Err? {
        return "Error: " + wd.error;
      }
      dir := wd.value;
    }
    var matches: seq<string>;
    if Contains(p.pattern, "**") {
      matches := RecursiveGlob(dir, p.pattern, tree, glob);
    } else {
      var globbed := simple(Join2(dir, p.pattern));
      if globbed.Err? {
        return "Error: invalid pattern: " + globbed.error;
      }
      matches := globbed.value;
    }
    if |matches| == 0 {
      return "No files matched the pattern: " + p.pattern;
    }
    var truncated := false;
    if |matches| > MaxGlobResults {
      matches := matches[..MaxGlobResults];
      truncated := true;
    }
    result := Join(matches, "\n");
    if truncated {
      result := result + Notice;
    }
  }

  // ---------------------------------------------------------------------------------------
  // What the tool promises

  lemma {:induction false} GlobbedStops(dir: Node, i: nat, k: nat, path: string, rel: string, suffix: string, glob: Matcher, acc: seq<string>)
    requires dir.Dir? && i <= k <= |dir.children|
    requires GlobbedAll(dir, i, path, rel, suffix, glob, acc).stopped
    ensures GlobbedAll(dir, k, path, rel, suffix, glob, acc) == GlobbedAll(dir, i, path, rel, suffix, glob, acc)
    decreases k
  {
    if k > i {
      GlobbedStops(dir, i, k - 1, path, rel, suffix, glob, acc);
    }
  }

  /** The walk of a directory's first `i + 1` entries goes on from that of its first `i`. */
  lemma GlobbedAllStep(dir: Node, i: nat, path: string, rel: string, suffix: string, glob: Matcher, acc: seq<string>)
    requires dir.Dir? && i < |dir.children|
    requires !GlobbedAll(dir, i, path, rel, suffix, glob, acc).stopped
    ensures var c := dir.children[i];
      GlobbedAll(dir, i + 1, path, rel, suffix, glob, acc)
        == Globbed(c, ChildPath(path, c.name), RelChild(rel, c.name), false, suffix, glob, GlobbedAll(dir, i, path, rel, suffix, glob, acc).matches)
  {
  }

  /**
   * A pattern "prefix**∕suffix" whose prefix holds no '*' and ends in one separator walks
   * the prefix's directory below the root and matches the files there against the suffix.
   */
  lemma DoubleStarSplit(root: string, prefix: string, suffix: string)
    requires '*' !in prefix && !HasPrefix(suffix, "/")
    requires prefix == "" || (HasSuffix(prefix, "/") && !HasSuffix(prefix[..|prefix| - 1], "/"))
    ensures SplitPattern(root, prefix + "**/" + suffix)
      == Split(if prefix == "" then root else Join2(root, prefix[..|prefix| - 1]), suffix)
  {
    var rest := "**/" + suffix;
    FirstDoubleStar(prefix, rest);
    assert prefix + "**/" + suffix == prefix + rest;
    assert rest[2..] == "/" + suffix;
    SuffixTrimmed(suffix);
    if prefix != "" {
      PrefixTrimmed(prefix);
    }
  }

  /** The separator after "**" is trimmed, and the second trim finds none. */
  lemma SuffixTrimmed(suffix: string)
    requires !HasPrefix(suffix, "/")
    ensures TrimPrefix(TrimPrefix("/" + suffix, "/"), "/") == suffix
  {
    assert ("/" + suffix)[1..] == suffix;
  }

  /** The separator before "**" is trimmed, and the second trim finds none. */
  lemma PrefixTrimmed(prefix: string)
    requires HasSuffix(prefix, "/") && !HasSuffix(prefix[..|prefix| - 1], "/")
    ensures TrimSuffix(TrimSuffix(prefix, "/"), "/") == prefix[..|prefix| - 1]
  {
    assert TrimSuffix(prefix, "/") == prefix[..|prefix| - 1];
  }

  /** A prefix without '*' puts the first "**" right after it. */
  lemma FirstDoubleStar(prefix: string, rest: string)
    requires '*' !in prefix && HasPrefix(rest, "**")
    ensures SplitOnce(prefix + rest, "**") == [prefix, rest[2..]]
  {
    var s := prefix + rest;
    var i := |prefix|;
    assert s[i..i + 2] == rest[..2];
    assert OccursAt(s, "**", i);
    forall j | 0 <= j < i
      ensures !OccursAt(s, "**", j)
    {
      assert s[j] == prefix[j];
    }
    assert Index(s, "**") == i;
    assert s[..i] == prefix && s[i + 2..] == rest[2..];
  }

  /** Hidden directories below the root are not entered. */
  lemma HiddenSkipped(name: string, children: seq<Node>, path: string, rel: string, suffix: string, glob: Matcher, acc: seq<string>)
    requires HasPrefix(name, ".") && |acc| < 2 * MaxGlobResults
    ensures Globbed(Dir(name, children), path, rel, false, suffix, glob, acc) == Walk(acc, false)
  {
  }

  /** A file is listed, by its path, exactly when the suffix is empty or matches its name or relative path. */
  lemma FileListed(f: Node, path: string, rel: string, isRoot: bool, suffix: string, glob: Matcher, acc: seq<string>)
    requires f.File? && |acc| < 2 * MaxGlobResults
    ensures Globbed(f, path, rel, isRoot, suffix, glob, acc).matches
      == if suffix == "" || glob(suffix, f.name) || glob(suffix, rel) then acc + [path] else acc
  {
  }

  /** The walk stops collecting at 2000 paths: started below that, it never ends above it. */
  lemma {:induction false} GlobbedBounded(n: Node, path: string, rel: string, isRoot: bool, suffix: string, glob: Matcher, acc: seq<string>)
    requires |acc| <= 2 * MaxGlobResults
    ensures |Globbed(n, path, rel, isRoot, suffix, glob, acc).matches| <= 2 * MaxGlobResults
    decreases n, 1
  {
    if |acc| < 2 * MaxGlobResults && n.Dir? && !(HasPrefix(n.name, ".") && !isRoot) {
      GlobbedAllBounded(n, |n.children|, path, rel, suffix, glob, acc);
    }
  }

  lemma {:induction false} GlobbedAllBounded(dir: Node, k: nat, path: string, rel: string, suffix: string, glob: Matcher, acc: seq<string>)
    requires dir.Dir? && k <= |dir.children| && |acc| <= 2 * MaxGlobResults
    ensures |GlobbedAll(dir, k, path, rel, suffix, glob, acc).matches| <= 2 * MaxGlobResults
    decreases dir, 0, k
  {
    if k > 0 {
      GlobbedAllBounded(dir, k - 1, path, rel, suffix, glob, acc);
      var w := GlobbedAll(dir, k - 1, path, rel, suffix, glob, acc);
      if !w.stopped {
        var c := dir.children[k - 1];
        GlobbedBounded(c, ChildPath(path, c.name), RelChild(rel, c.name), false, suffix, glob, w.matches);
      }
    }
  }

  /** Results past the 1000th never show. */
  lemma ReportIgnoresTail(pattern: string, first: seq<string>, rest1: seq<string>, rest2: seq<string>)
    requires |first| == MaxGlobResults && rest1 != [] && rest2 != []
    ensures Report(pattern, first + rest1) == Report(pattern, first + rest2)
    ensures Report(pattern, first + rest1) == Join(first, "\n") + Notice
  {
    assert (first + rest1)[..MaxGlobResults] == first;
    assert (first + rest2)[..MaxGlobResults] == first;
  }

  /** A pattern without "**" goes to filepath.Glob alone; the tree is not walked. */
  lemma SimplePattern(p: GlobParams, wd: Result<string>, tree1: string -> Option<Node>, tree2: string -> Option<Node>, simple: string -> Result<seq<string>>, glob: Matcher)
    requires !Contains(p.pattern, "**")
    ensures Result(Ok(p), wd, tree1, simple, glob) == Result(Ok(p), wd, tree2, simple, glob)
  {
  }

  lemma PatternRequired(path: string, wd: Result<string>, tree: string -> Option<Node>, simple: string -> Result<seq<string>>, glob: Matcher)
    ensures Result(Ok(GlobParams("", path)), wd, tree, simple, glob) == "Error: pattern is required"
  {
  }
}
