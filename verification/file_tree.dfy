/**
 * The part of the file system the grep and glob tools walk with filepath.WalkDir: a tree of
 * directories and regular files, each directory's entries in the lexical order WalkDir
 * visits them.
 */
module FileTree {
  import opened FilePath

  /**
   * A file is what opening and reading it gives: whether os.Open succeeds, its bytes, and the
   * lines a bufio.Scanner yields from it.
   */
  datatype Node =
    | File(name: string, readable: bool, data: seq<bv8>, lines: seq<string>)
    | Dir(name: string, children: seq<Node>)

  /** The matches collected so far and whether a callback has returned filepath.SkipAll. */
  datatype Walk = Walk(matches: seq<string>, stopped: bool)

  /** The path WalkDir hands the callback for an entry of the directory at `parent`. */
  function ChildPath(parent: string, name: string): string {
    Join2(parent, name)
  }

  /** filepath.Match(pattern, name), its error read as no match. */
  type Matcher = (string, string) -> bool

  /** Whether `a` leads `b`. */
  predicate Extends<T(==)>(a: seq<T>, b: seq<T>) {
    |a| <= |b| && b[..|a|] == a
  }
}
