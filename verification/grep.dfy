/**
 * The grep tool (internal/tool/grep.go): search the lines of a file, or of every file below a
 * directory, for a regular expression. Decoding the JSON arguments, regexp.Compile, the
 * working directory, os.Stat and filepath.Match are parameters; a compiled expression is
 * the predicate it decides on a line.
 */
module Grep {
  import opened Wrappers
  import opened Text
  import opened FileTree

  const MaxGrepMatches: nat := 500

  /** The directories the walk never enters. */
  const SkipDirs: set<string> := {".git", "node_modules", "vendor", ".hg", ".svn", "__pycache__"}

  const Notice: string := "\n\n[truncated \U{2014} showing first 500 matches]"

  type Regex = string -> bool

  datatype GrepParams = GrepParams(pattern: string, path: string, includePattern: string)

  /** What os.Stat reports: an error, or the entry at the path with everything below it. */
  datatype Stat = StatFailed(msg: string) | Found(node: Node)

  /** The expression and the include filter of one search. */
  datatype Query = Query(re: Regex, includePattern: string, glob: Matcher)

  // ---------------------------------------------------------------------------------------
  // grepFile

  /** One match: the path, the 1-based line number and the line. */
  function Line(path: string, n: nat, line: string): string {
    path + ":" + NatToString(n) + ":" + line
  }

  /** The indices of the lines the expression matches, in order, each once. */
  function Hits(lines: seq<string>, re: Regex): (h: seq<nat>)
    ensures forall j :: 0 <= j < |h| ==> h[j] < |lines| && re(lines[h[j]])
    ensures forall j, k :: 0 <= j < k < |h| ==> h[j] < h[k]
    ensures forall i :: 0 <= i < |lines| && re(lines[i]) ==> i in h
  {
    if lines == [] then []
    else
      var k := |lines| - 1;
      assert forall i :: 0 <= i < k ==> lines[..k][i] == lines[i];
      Hits(lines[..k], re) + (if re(lines[k]) then [k] else [])
  }

  /** The matches of one file's lines, as grepFile collects them. */
  function FileMatches(path: string, lines: seq<string>, re: Regex): seq<string> {
    if lines == [] then []
    else
      var k := |lines| - 1;
      FileMatches(path, lines[..k], re) + (if re(lines[k]) then [Line(path, k + 1, lines[k])] else [])
  }

  /** grepFile: nothing when the file cannot be opened, otherwise its matches in line order. */
  method GrepFile(path: string, f: Node, re: Regex) returns (matches: seq<string>)
    requires f.File?
    ensures matches == if f.readable then FileMatches(path, f.lines, re) else []
  {
    if !f.readable {
      return [];
    }
    matches := [];
    var lineNum := 0;
    while lineNum < |f.lines|
      invariant lineNum <= |f.lines|
      invariant matches == FileMatches(path, f.lines[..lineNum], re)
    {
      lineNum := lineNum + 1;
      var line := f.lines[lineNum - 1];
      assert f.lines[..lineNum][..lineNum - 1] == f.lines[..lineNum - 1];
      if re(line) {
        matches := matches + [Line(path, lineNum, line)];
      }
    }
    assert f.lines[..lineNum] == f.lines;
  }

  // ---------------------------------------------------------------------------------------
  // isBinary

  function Min(a: nat, b: nat): nat {
    if a < b then a else b
  }

  /** Whether a zero byte is among the first 512 bytes of a file. */
  predicate Binary(data: seq<bv8>) {
    0 in data[..Min(512, |data|)]
  }

  /** isBinary: a file that cannot be opened or is empty is not binary. */
  method IsBinary(f: Node) returns (b: bool)
    requires f.File?
    ensures b <==> f.readable && exists i :: 0 <= i < |f.data| && i < 512 && f.data[i] == 0
  {
    if !f.readable {
      return false;
    }
    var n := Min(512, |f.data|);
    if n == 0 {
      return false;
    }
    var buf := f.data[..n];
    for i := 0 to n
      invariant forall j :: 0 <= j < i ==> buf[j] != 0
    {
      if buf[i] == 0 {
        assert f.data[i] == 0;
        return true;
      }
    }
    return false;
  }

  // ---------------------------------------------------------------------------------------
  // grepDir

  /**
   * Whether the walk declines to enter a directory. As written, a root directory whose
   * name is in SkipDirs is declined too; the corrected rule exempts the root from both tests.
   */
  predicate SkipsDir(name: string, isRoot: bool, asWritten: bool) {
    if asWritten then name in SkipDirs || (HasPrefix(name, ".") && !isRoot)
    else !isRoot && (name in SkipDirs || HasPrefix(name, "."))
  }

  /** The matches the walk has collected after visiting `n` at `path`, starting from `acc`. */
  function Grepped(n: Node, path: string, isRoot: bool, q: Query, acc: seq<string>, asWritten: bool): Walk
    decreases n, 1
  {
    if |acc| >= 2 * MaxGrepMatches then Walk(acc, true)
    else
      match n
      case Dir(name, children) =>
        if SkipsDir(name, isRoot, asWritten) then Walk(acc, false)
        else GreppedAll(n, |children|, path, q, acc, asWritten)
      case File(name, readable, data, lines) =>
        if q.includePattern != "" && !q.glob(q.includePattern, name) then Walk(acc, false)
        else if readable && Binary(data) then Walk(acc, false)
        else Walk(acc + (if readable then FileMatches(path, lines, q.re) else []), false)
  }

  /** The same for the first `k` entries of a directory. */
  function GreppedAll(dir: Node, k: nat, path: string, q: Query, acc: seq<string>, asWritten: bool): Walk
    requires dir.Dir? && k <= |dir.children|
    decreases dir, 0, k
  {
    if k == 0 then Walk(acc, false)
    else
      var w := GreppedAll(dir, k - 1, path, q, acc, asWritten);
      if w.stopped then w
      else
        var c := dir.children[k - 1];
        Grepped(c, ChildPath(path, c.name), false, q, w.matches, asWritten)
  }

  /** The walk of one grepDir call: `matches` is the slice the callback appends to. */
  class Search {
    const q: Query
    var matches: seq<string>

    constructor (q: Query)
      ensures this.q == q && matches == []
    {
      this.q, matches := q, [];
    }

    /** The callback for `n` and, unless it skips or stops, the walk below it. */
    method Visit(n: Node, path: string, isRoot: bool) returns (stop: bool)
      modifies this
      decreases n, 1
      ensures Walk(matches, stop) == Grepped(n, path, isRoot, q, old(matches), false)
    {
      if |matches| >= 2 * MaxGrepMatches {
        return true;
      }
      match n
      case Dir(name, children) =>
        if SkipsDir(name, isRoot, false) {
          return false;
        }
        stop := VisitChildren(n, path);
      case File(name, readable, data, lines) =>
        if q.includePattern != "" && !q.glob(q.includePattern, name) {
          return false;
        }
        var binary := IsBinary(n);
        assert binary == (readable && Binary(data));
        if binary {
          return false;
        }
        var fileMatches := GrepFile(path, n, q.re);
        matches := matches + fileMatches;
        return false;
    }

    /** The entries of a directory in order, until one of them stops the walk. */
    method VisitChildren(dir: Node, path: string) returns (stop: bool)
      requires dir.Dir?
      modifies this
      decreases dir, 0
      ensures Walk(matches, stop) == GreppedAll(dir, |dir.children|, path, q, old(matches), false)
    {
      ghost var acc := matches;
      stop := false;
      var i := 0;
      while i < |dir.children|
        invariant i <= |dir.children|
        invariant Walk(matches, false) == GreppedAll(dir, i, path, q, acc, false)
      {
        var c := dir.children[i];
        GreppedAllStep(dir, i, path, q, acc);
        stop := Visit(c, ChildPath(path, c.name), false);
        i := i + 1;
        if stop {
          GreppedStops(dir, i, |dir.children|, path, q, acc, false);
          return;
        }
      }
    }
  }

  /** grepDir: walk the directory `root` found at `dir`. */
  method GrepDir(root: Node, dir: string, q: Query) returns (matches: seq<string>)
    ensures matches == Grepped(root, dir, true, q, [], false).matches
  {
    var search := new Search(q);
    var _ := search.Visit(root, dir, true);
    matches := search.matches;
  }

  // ---------------------------------------------------------------------------------------
  // Execute

  /** The result text for the collected matches. */
  function Report(pattern: string, matches: seq<string>): string {
    if matches == [] then "No matches found for pattern: " + pattern
    else if |matches| > MaxGrepMatches then Join(matches[..MaxGrepMatches], "\n") + Notice
    else Join(matches, "\n")
  }

  /** The path searched: the one given, or the working directory. */
  function SearchPath(path: string, wd: Result<string>): Result<string> {
    if path != "" then Ok(path) else wd
  }

  /** What Execute returns. */
  function Result(params: Result<GrepParams>, compile: string -> Result<Regex>, wd: Result<string>, stat: string -> Stat, glob: Matcher): string {
    if params.Err? then "Error: invalid parameters: " + params.error
    else
      var p := params.value;
      if p.pattern == "" then "Error: pattern is required"
      else
        match compile(p.pattern)
        case Err(e) => "Error: invalid regex: " + e
        case Ok(re) =>
          match SearchPath(p.path, wd)
          case Err(e) => "Error: " + e
          case Ok(searchPath) =>
            match stat(searchPath)
            case StatFailed(e) => "Error: " + e
            case Found(n) =>
              var matches :=
                if n.Dir? then Grepped(n, searchPath, true, Query(re, p.includePattern, glob), [], false).matches
                else if n.readable then FileMatches(searchPath, n.lines, re) else [];
              Report(p.pattern, matches)
  }

  method Execute(params: Result<GrepParams>, compile: string -> Result<Regex>, wd: Result<string>, stat: string -> Stat, glob: Matcher)
    returns (result: string)
    ensures result == Result(params, compile, wd, stat, glob)
  {
    if params.Err? {
      return "Error: invalid parameters: " + params.error;
    }
    var p := params.value;
    if p.pattern == "" {
      return "Error: pattern is required";
    }
    var compiled := compile(p.pattern);
    if compiled.Err? {
      return "Error: invalid regex: " + compiled.error;
    }
    var re := compiled.value;
    var searchPath := p.path;
    if searchPath == "" {
      if wd.Err? {
        return "Error: " + wd.error;
      }
      searchPath := wd.value;
    }
    var info := stat(searchPath);
    if info.StatFailed? {
      return "Error: " + info.msg;
    }
    var matches: seq<string>;
    if info.node.Dir? {
      matches := GrepDir(info.node, searchPath, Query(re, p.includePattern, glob));
    } else {
      matches := GrepFile(searchPath, info.node, re);
    }
    if |matches| == 0 {
      return "No matches found for pattern: " + p.pattern;
    }
    var truncated := false;
    if |matches| > MaxGrepMatches {
      matches := matches[..MaxGrepMatches];
      truncated := true;
    }
    result := Join(matches, "\n");
    if truncated {
      result := result + Notice;
    }
  }

  // ---------------------------------------------------------------------------------------
  // What the tool promises

  /** Once a callback has stopped the walk, the remaining entries change nothing. */
  lemma {:induction false} GreppedStops(dir: Node, i: nat, k: nat, path: string, q: Query, acc: seq<string>, asWritten: bool)
    requires dir.Dir? && i <= k <= |dir.children|
    requires GreppedAll(dir, i, path, q, acc, asWritten).stopped
    ensures GreppedAll(dir, k, path, q, acc, asWritten) == GreppedAll(dir, i, path, q, acc, asWritten)
    decreases k
  {
    if k > i {
      GreppedStops(dir, i, k - 1, path, q, acc, asWritten);
    }
  }

  /** The walk of a directory's first `i + 1` entries goes on from that of its first `i`. */
  lemma GreppedAllStep(dir: Node, i: nat, path: string, q: Query, acc: seq<string>)
    requires dir.Dir? && i < |dir.children|
    requires !GreppedAll(dir, i, path, q, acc, false).stopped
    ensures var c := dir.children[i];
      GreppedAll(dir, i + 1, path, q, acc, false)
        == Grepped(c, ChildPath(path, c.name), false, q, GreppedAll(dir, i, path, q, acc, false).matches, false)
  {
  }

  /** A file's matches are its matching lines, in order, each as "path:N:line". */
  lemma {:induction false} FileMatchesAreHits(path: string, lines: seq<string>, re: Regex)
    ensures var h := Hits(lines, re);
      |FileMatches(path, lines, re)| == |h|
      && forall j :: 0 <= j < |h| ==> FileMatches(path, lines, re)[j] == Line(path, h[j] + 1, lines[h[j]])
    decreases |lines|
  {
    if lines != [] {
      var k := |lines| - 1;
      var front := lines[..k];
      FileMatchesAreHits(path, front, re);
      var h, h0 := Hits(lines, re), Hits(front, re);
      var m, m0 := FileMatches(path, lines, re), FileMatches(path, front, re);
      assert h == h0 + (if re(lines[k]) then [k] else []);
      assert m == m0 + (if re(lines[k]) then [Line(path, k + 1, lines[k])] else []);
      forall j | 0 <= j < |h|
        ensures m[j] == Line(path, h[j] + 1, lines[h[j]])
      {
        if j < |h0| {
          assert m[j] == m0[j] && h[j] == h0[j];
          assert front[h0[j]] == lines[h0[j]];
        }
      }
    }
  }

  /** The walk only appends: what was collected before is kept, in front. */
  lemma {:induction false} GreppedExtends(n: Node, path: string, isRoot: bool, q: Query, acc: seq<string>, asWritten: bool)
    ensures Extends(acc, Grepped(n, path, isRoot, q, acc, asWritten).matches)
    decreases n, 1
  {
    if |acc| < 2 * MaxGrepMatches {
      match n
      case Dir(name, children) =>
        if !SkipsDir(name, isRoot, asWritten) {
          GreppedAllExtends(n, |children|, path, q, acc, asWritten);
        }
      case File(_, _, _, _) =>
    }
  }

  lemma {:induction false} GreppedAllExtends(dir: Node, k: nat, path: string, q: Query, acc: seq<string>, asWritten: bool)
    requires dir.Dir? && k <= |dir.children|
    ensures Extends(acc, GreppedAll(dir, k, path, q, acc, asWritten).matches)
    decreases dir, 0, k
  {
    if k > 0 {
      var w := GreppedAll(dir, k - 1, path, q, acc, asWritten);
      GreppedAllExtends(dir, k - 1, path, q, acc, asWritten);
      if !w.stopped {
        var c := dir.children[k - 1];
        GreppedExtends(c, ChildPath(path, c.name), false, q, w.matches, asWritten);
        var r := Grepped(c, ChildPath(path, c.name), false, q, w.matches, asWritten).matches;
        assert r[..|acc|] == r[..|w.matches|][..|acc|];
      }
    }
  }

  /** Directories in SkipDirs and hidden directories below the root are not entered. */
  lemma SkippedDirectory(name: string, children: seq<Node>, path: string, q: Query, acc: seq<string>)
    requires name in SkipDirs || HasPrefix(name, ".")
    requires |acc| < 2 * MaxGrepMatches
    ensures Grepped(Dir(name, children), path, false, q, acc, false) == Walk(acc, false)
  {
  }

  /** With an include pattern, a file whose base name it does not match is not searched. */
  lemma Excluded(f: Node, path: string, isRoot: bool, q: Query, acc: seq<string>)
    requires f.File? && q.includePattern != "" && !q.glob(q.includePattern, f.name)
    requires |acc| < 2 * MaxGrepMatches
    ensures Grepped(f, path, isRoot, q, acc, false) == Walk(acc, false)
  {
  }

  /** A binary file is not searched. */
  lemma BinarySkipped(f: Node, path: string, isRoot: bool, q: Query, acc: seq<string>)
    requires f.File? && f.readable && Binary(f.data)
    requires |acc| < 2 * MaxGrepMatches
    ensures Grepped(f, path, isRoot, q, acc, false) == Walk(acc, false)
  {
  }

  /** Results past the 500th never show: two match lists that share their first 500 give the same text. */
  lemma ReportIgnoresTail(pattern: string, first: seq<string>, rest1: seq<string>, rest2: seq<string>)
    requires |first| == MaxGrepMatches && rest1 != [] && rest2 != []
    ensures Report(pattern, first + rest1) == Report(pattern, first + rest2)
    ensures Report(pattern, first + rest1) == Join(first, "\n") + Notice
  {
    assert (first + rest1)[..MaxGrepMatches] == first;
    assert (first + rest2)[..MaxGrepMatches] == first;
  }

  /** Up to 500 matches are all shown, one per line, and no matches give the message naming the pattern. */
  lemma ReportsAll(pattern: string, matches: seq<string>)
    requires |matches| <= MaxGrepMatches
    ensures Report(pattern, matches) == if matches == [] then "No matches found for pattern: " + pattern else Join(matches, "\n")
  {
  }

  /** An empty pattern and an expression that does not compile are refused before anything is read. */
  lemma PatternChecked(p: GrepParams, compile: string -> Result<Regex>, wd: Result<string>, stat: string -> Stat, glob: Matcher)
    requires p.pattern == "" || compile(p.pattern).Err?
    ensures Result(Ok(p), compile, wd, stat, glob)
      == if p.pattern == "" then "Error: pattern is required" else "Error: invalid regex: " + compile(p.pattern).error
  {
  }

  // ---------------------------------------------------------------------------------------
  // The root directory's name

  /** As written: a search rooted at a directory named like one in SkipDirs finds nothing. */
  lemma SkipDirRootAsWritten(name: string, children: seq<Node>, path: string, q: Query)
    requires name in SkipDirs
    ensures Grepped(Dir(name, children), path, true, q, [], true) == Walk([], false)
  {
  }

  /** For instance, a directory "vendor" holding one file whose one line matches. */
  lemma VendorRootExample(path: string, re: Regex, glob: Matcher)
    requires re("x")
    ensures var root := Dir("vendor", [File("main.go", true, [], ["x"])]);
      var q := Query(re, "", glob);
      && Grepped(root, path, true, q, [], true).matches == []
      && Grepped(root, path, true, q, [], false).matches == [Line(ChildPath(path, "main.go"), 1, "x")]
  {
    var lines := ["x"];
    assert lines[..0] == [];
    assert FileMatches(ChildPath(path, "main.go"), lines, re) == [Line(ChildPath(path, "main.go"), 1, "x")];
  }

  /** Corrected: the root is always entered, whatever it is called. */
  lemma RootNameIgnored(name1: string, name2: string, children: seq<Node>, path: string, q: Query, acc: seq<string>)
    ensures Grepped(Dir(name1, children), path, true, q, acc, false) == Grepped(Dir(name2, children), path, true, q, acc, false)
  {
    GreppedAllRenamed(Dir(name1, children), Dir(name2, children), |children|, path, q, acc);
  }

  lemma {:induction false} GreppedAllRenamed(d1: Node, d2: Node, k: nat, path: string, q: Query, acc: seq<string>)
    requires d1.Dir? && d2.Dir? && d1.children == d2.children && k <= |d1.children|
    ensures GreppedAll(d1, k, path, q, acc, false) == GreppedAll(d2, k, path, q, acc, false)
    decreases k
  {
    if k > 0 {
      GreppedAllRenamed(d1, d2, k - 1, path, q, acc);
    }
  }
}
