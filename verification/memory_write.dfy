/**
 * The memory_write tool (internal/tool/memory_write.go): write a file below the memory
 * directory, refusing any path that resolves outside it. Decoding the JSON arguments, the
 * working directory and the two file-system calls are parameters: `params` is what decoding
 * gave, `wd` what os.Getwd gives, and `mkdirErr` and `writeErr` how os.MkdirAll and
 * os.WriteFile went.
 */
module MemoryWrite {
  import opened Wrappers
  import opened Text
  import opened FilePath

  datatype MemoryParams = MemoryParams(filePath: string, content: string)

  /** The result text and, when Execute got that far, the path and contents handed to os.WriteFile. */
  datatype Outcome = Outcome(result: string, written: Option<(string, string)>)

  const EscapeError: string := "Error: file_path must not escape the memory directory"

  /** filepath.Abs: an absolute path is cleaned, a relative one joined onto the working directory. */
  function Abs(p: string, wd: Result<string>): (r: Result<string>)
    ensures Rooted(p) ==> r == Ok(Clean(p))
  {
    if Rooted(p) then Ok(Clean(p))
    else if wd.Err? then Err(wd.error)
    else Ok(Join2(wd.value, p))
  }

  /** Preview: the size of the content and the joined path. */
  function Preview(memoryDir: string, params: Result<MemoryParams>): string {
    if params.Err? then "Write memory file (invalid params)"
    else "Write " + NatToString(|params.value.content|) + " bytes to memory: " + Join2(memoryDir, params.value.filePath)
  }

  function Execute(memoryDir: string, params: Result<MemoryParams>, wd: Result<string>, mkdirErr: Option<string>, writeErr: Option<string>): (o: Outcome) {
    if params.Err? then Outcome("Error: invalid parameters: " + params.error, None)
    else
      var p := params.value;
      if p.filePath == "" then Outcome("Error: file_path is required", None)
      else
        match Abs(Join2(memoryDir, p.filePath), wd)
        case Err(e) => Outcome("Error: invalid path: " + e, None)
        case Ok(resolved) =>
          match Abs(memoryDir, wd)
          case Err(e) => Outcome("Error: invalid memory directory: " + e, None)
          case Ok(absMemDir) =>
            if !HasPrefix(resolved, absMemDir + "/") && resolved != absMemDir then Outcome(EscapeError, None)
            else if mkdirErr.Some? then Outcome("Error: failed to create directory: " + mkdirErr.value, None)
            else if writeErr.Some? then Outcome("Error: " + writeErr.value, Some((resolved, p.content)))
            else Outcome("Memory written: " + resolved, Some((resolved, p.content)))
  }

  /** The names of an absolute memory directory, cleaned. */
  function DirNames(memoryDir: string): seq<string> {
    Scan([], Segments(memoryDir), true)
  }

  /** The names of the path a file path resolves to below an absolute memory directory. */
  function TargetNames(memoryDir: string, filePath: string): seq<string> {
    Scan([], Segments(memoryDir + "/" + filePath), true)
  }

  // ---------------------------------------------------------------------------------------
  // What the tool promises

  lemma PathRequired(memoryDir: string, content: string, wd: Result<string>, mkdirErr: Option<string>, writeErr: Option<string>)
    ensures Execute(memoryDir, Ok(MemoryParams("", content)), wd, mkdirErr, writeErr) == Outcome("Error: file_path is required", None)
  {
  }

  lemma NamesArePlain(s: string)
    ensures AllPlain(Scan([], Segments(s), true))
  {
    SegmentsSeparated(s);
    ScanRootedPlain([], Segments(s));
  }

  /** For an absolute memory directory both paths the check compares are cleaned absolute paths. */
  lemma Resolves(memoryDir: string, filePath: string, wd: Result<string>)
    requires Rooted(memoryDir) && filePath != ""
    ensures Join2(memoryDir, filePath) == Render(TargetNames(memoryDir, filePath))
    ensures Abs(Join2(memoryDir, filePath), wd) == Ok(Render(TargetNames(memoryDir, filePath)))
    ensures Abs(memoryDir, wd) == Ok(Render(DirNames(memoryDir)))
  {
    var joined := memoryDir + "/" + filePath;
    assert joined[..1] == memoryDir[..1];
    assert Rooted(joined);
    NamesArePlain(joined);
    CleanRender(TargetNames(memoryDir, filePath));
  }

  /**
   * For an absolute memory directory that is not the root: a path whose resolved names the
   * memory directory's names do not lead is refused and nothing is written; any other path
   * is written at its resolved path unless creating its directory fails.
   */
  lemma Containment(memoryDir: string, p: MemoryParams, wd: Result<string>, mkdirErr: Option<string>, writeErr: Option<string>)
    requires Rooted(memoryDir) && DirNames(memoryDir) != [] && p.filePath != ""
    ensures var o := Execute(memoryDir, Ok(p), wd, mkdirErr, writeErr);
      var target := TargetNames(memoryDir, p.filePath);
      && (!IsPrefix(DirNames(memoryDir), target) ==> o == Outcome(EscapeError, None))
      && (IsPrefix(DirNames(memoryDir), target) && mkdirErr.None? ==> o.written == Some((Render(target), p.content)))
      && (o.written.Some? ==> o.written.value == (Render(target), p.content) && IsPrefix(DirNames(memoryDir), target))
  {
    Resolves(memoryDir, p.filePath, wd);
    NamesArePlain(memoryDir);
    NamesArePlain(memoryDir + "/" + p.filePath);
    Contained(DirNames(memoryDir), TargetNames(memoryDir, p.filePath));
  }

  /** A relative path of plain names, such as "notes/debug.md", resolves to those names below the directory. */
  lemma NestedStaysInside(memoryDir: string, filePath: string)
    requires AllPlain(Segments(filePath))
    ensures TargetNames(memoryDir, filePath) == DirNames(memoryDir) + Segments(filePath)
    ensures IsPrefix(DirNames(memoryDir), TargetNames(memoryDir, filePath))
  {
    SegmentsJoin(memoryDir, filePath);
    ScanAppend([], Segments(memoryDir), Segments(filePath), true);
    ScanNames(DirNames(memoryDir), Segments(filePath), true);
    var d := DirNames(memoryDir);
    assert (d + Segments(filePath))[..|d|] == d;
  }

  /**
   * A path that climbs `k` levels, as "../../etc/passwd" climbs two, and then names anything
   * but the `k` directories it climbed out of, resolves outside the memory directory.
   */
  lemma ClimbingEscapes(memoryDir: string, filePath: string, k: nat, names: seq<string>)
    requires Segments(filePath) == seq(k, _ => "..") + names && AllPlain(names)
    requires var d := DirNames(memoryDir); 1 <= k <= |d| && !IsPrefix(d[|d| - k..], names)
    ensures !IsPrefix(DirNames(memoryDir), TargetNames(memoryDir, filePath))
  {
    var d := DirNames(memoryDir);
    var ups := seq(k, _ => "..");
    NamesArePlain(memoryDir);
    SegmentsJoin(memoryDir, filePath);
    ScanAppend([], Segments(memoryDir), ups + names, true);
    ScanAppend(d, ups, names, true);
    ScanClimbs(d, k);
    ScanNames(d[..|d| - k], names, true);
    assert TargetNames(memoryDir, filePath) == d[..|d| - k] + names;
    KeptPrefix(d, k, names);
  }

  /** Names put in place of the last `k` lead on from the rest only when they repeat those `k`. */
  lemma KeptPrefix(d: seq<string>, k: nat, names: seq<string>)
    requires k <= |d| && !IsPrefix(d[|d| - k..], names)
    ensures !IsPrefix(d, d[..|d| - k] + names)
  {
  }

  /** For an absolute memory directory the preview names the path that is written. */
  lemma PreviewNamesTarget(memoryDir: string, p: MemoryParams, wd: Result<string>, mkdirErr: Option<string>, writeErr: Option<string>)
    requires Rooted(memoryDir) && p.filePath != ""
    requires Execute(memoryDir, Ok(p), wd, mkdirErr, writeErr).written.Some?
    ensures Preview(memoryDir, Ok(p))
      == "Write " + NatToString(|p.content|) + " bytes to memory: " + Execute(memoryDir, Ok(p), wd, mkdirErr, writeErr).written.value.0
  {
    Resolves(memoryDir, p.filePath, wd);
  }
}
