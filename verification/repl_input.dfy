/**
 * The line-mode input reader (internal/repl/input.go): it prompts, reads lines from a
 * scanner, and joins lines that end in a backslash with the line after them.
 *
 * The scanner is the sequence of lines its input holds and how that input ends: cleanly
 * (io.EOF) or with a read failure, which the scanner then keeps reporting. The prompts are
 * the list of writes made to the reader's output.
 */
module ReplInput {
  import opened Wrappers
  import opened Text

  const PrimaryPrompt: string := "> "
  const ContinuationPrompt: string := ". "

  /** What a scanner yields: its lines, then a clean end (None) or a failure. */
  datatype Source = Source(lines: seq<string>, failure: Option<string>)

  datatype ReadError = EOF | ReadFailure(msg: string)

  /** How a stream ends, as ReadInput reports it. */
  function EndError(src: Source): ReadError {
    if src.failure.None? then EOF else ReadFailure(src.failure.value)
  }

  /** bufio.Scanner over a source: Scan moves to the next line until there is none. */
  class Scanner {
    const src: Source
    var pos: nat

    ghost predicate Valid()
      reads this
    {
      pos <= |src.lines|
    }

    constructor (src: Source)
      ensures this.src == src && pos == 0 && Valid()
    {
      this.src, pos := src, 0;
    }

    method Scan() returns (ok: bool, text: string)
      requires Valid()
      modifies this
      ensures Valid()
      ensures ok <==> old(pos) < |src.lines|
      ensures ok ==> text == src.lines[old(pos)] && pos == old(pos) + 1
      ensures !ok ==> pos == old(pos)
    {
      if pos < |src.lines| {
        ok, text := true, src.lines[pos];
        pos := pos + 1;
      } else {
        ok, text := false, "";
      }
    }

    /** Err: nothing while lines remain, then the way the input ended, for good. */
    function Err(): (e: Option<string>)
      reads this
    {
      if pos < |src.lines| then None else src.failure
    }
  }

  /** Whether a line asks for the next one. */
  predicate Continues(line: string) {
    HasSuffix(line, "\\")
  }

  /** The first line that does not continue, or -1 when every line does. */
  function Terminator(rest: seq<string>): (j: int)
    ensures -1 <= j < |rest|
    ensures j != -1 ==> !Continues(rest[j])
    ensures forall i :: 0 <= i < |rest| && (j == -1 || i < j) ==> Continues(rest[i])
    decreases |rest|
  {
    if rest == [] then -1
    else if !Continues(rest[0]) then 0
    else
      var j := Terminator(rest[1..]);
      if j == -1 then -1 else j + 1
  }

  /** The first n lines, each without its one trailing backslash. */
  function Pieces(rest: seq<string>, n: nat): (p: seq<string>)
    requires n <= |rest|
    ensures |p| == n
    ensures forall i :: 0 <= i < n ==> p[i] == TrimSuffix(rest[i], "\\")
  {
    if n == 0 then [] else Pieces(rest, n - 1) + [TrimSuffix(rest[n - 1], "\\")]
  }

  function Dots(n: nat): (d: seq<string>)
    ensures |d| == n && forall i :: 0 <= i < n ==> d[i] == ContinuationPrompt
  {
    if n == 0 then [] else Dots(n - 1) + [ContinuationPrompt]
  }

  /** One ReadInput from line `pos` on: the input, the error, where the next read starts, and the ". " prompts. */
  datatype Reading = Reading(input: string, err: Option<ReadError>, next: nat, dots: nat)

  function Read(src: Source, pos: nat): (r: Reading)
    requires pos <= |src.lines|
    ensures pos <= r.next <= |src.lines|
    ensures r.err.None? <==> r.next > pos && !Continues(src.lines[r.next - 1])
    ensures r.err.Some? ==> r.input == "" && r.next == |src.lines| && r.err.value == EndError(src)
  {
    var rest := src.lines[pos..];
    var j := Terminator(rest);
    if j != -1 then Reading(Join(Pieces(rest, j + 1), "\n"), None, pos + j + 1, j)
    else Reading("", Some(EndError(src)), |src.lines|, |rest|)
  }

  class InputReader {
    const scanner: Scanner
    var prompts: seq<string>

    constructor (scanner: Scanner)
      ensures this.scanner == scanner && prompts == []
    {
      this.scanner, prompts := scanner, [];
    }

    /**
     * ReadInput: "> ", then ". " before every further line; lines ending in a backslash
     * are collected without it, the first other line ends the input, and a stream that
     * ends first gives its error and drops what was collected.
     */
    method ReadInput() returns (input: string, err: Option<ReadError>)
      requires scanner.Valid()
      modifies this, scanner
      ensures scanner.Valid()
      ensures var r := Read(scanner.src, old(scanner.pos));
        && input == r.input && err == r.err && scanner.pos == r.next
        && prompts == old(prompts) + [PrimaryPrompt] + Dots(r.dots)
    {
      ghost var pos0 := scanner.pos;
      ghost var rest := scanner.src.lines[pos0..];
      ghost var prompts0 := prompts;
      prompts := prompts + [PrimaryPrompt];
      var lines: seq<string> := [];
      var first := true;
      ghost var dots := 0;
      while true
        invariant scanner.Valid()
        invariant first <==> |lines| == 0
        invariant scanner.pos == pos0 + |lines| && Collected(rest, lines)
        invariant prompts == prompts0 + [PrimaryPrompt] + Dots(dots)
        invariant if first then dots == 0 else dots + 1 == |lines|
        decreases |scanner.src.lines| - scanner.pos
      {
        if !first {
          prompts, dots := prompts + [ContinuationPrompt], dots + 1;
        }
        first := false;
        assert dots == |lines|;
        var ok, line := scanner.Scan();
        if !ok {
          ReadEnded(scanner.src, pos0, lines);
          EndReported(scanner);
          input := "";
          err := if scanner.Err().Some? then Some(ReadFailure(scanner.Err().value)) else Some(EOF);
          return;
        }
        assert line == rest[|lines|];
        if HasSuffix(line, "\\") {
          ContinuedLine(rest, lines, line);
          lines := lines + [TrimSuffix(line, "\\")];
          continue;
        }
        ReadEndsAt(scanner.src, pos0, lines);
        lines := lines + [line];
        break;
      }
      input := Join(lines, "\n");
      err := None;
    }
  }

  /** Once the lines are used up, the scanner's error is the way the stream ended. */
  lemma EndReported(scanner: Scanner)
    requires scanner.pos == |scanner.src.lines|
    ensures (if scanner.Err().Some? then Some(ReadFailure(scanner.Err().value)) else Some(EOF)) == Some(EndError(scanner.src))
  {
  }

  /** `lines` holds the first lines of `rest`, each continued and without its backslash. */
  predicate Collected(rest: seq<string>, lines: seq<string>) {
    |lines| <= |rest| && lines == Pieces(rest, |lines|)
    && forall i :: 0 <= i < |lines| ==> Continues(rest[i])
  }

  /** One more continued line is collected without its backslash. */
  lemma ContinuedLine(rest: seq<string>, lines: seq<string>, line: string)
    requires Collected(rest, lines) && |lines| < |rest| && line == rest[|lines|] && Continues(line)
    ensures Collected(rest, lines + [TrimSuffix(line, "\\")])
  {
  }

  /** The stream ran out after the collected lines. */
  lemma ReadEnded(src: Source, pos: nat, lines: seq<string>)
    requires pos + |lines| == |src.lines| && Collected(src.lines[pos..], lines)
    ensures Read(src, pos) == Reading("", Some(EndError(src)), |src.lines|, |lines|)
  {
  }

  /** The line after the collected ones is the first that does not continue. */
  lemma ReadEndsAt(src: Source, pos: nat, lines: seq<string>)
    requires pos + |lines| < |src.lines| && Collected(src.lines[pos..], lines)
    requires !Continues(src.lines[pos + |lines|])
    ensures Read(src, pos) == Reading(Join(lines + [src.lines[pos + |lines|]], "\n"), None, pos + |lines| + 1, |lines|)
  {
    var rest, k := src.lines[pos..], |lines|;
    assert rest[k] == src.lines[pos + k];
    assert Terminator(rest) == k;
  }

  // ---------------------------------------------------------------------------------------
  // What reading promises

  /** A read that succeeds consumes at least one line, and a failed read consumes the rest. */
  lemma ReadProgress(src: Source, pos: nat)
    requires pos <= |src.lines|
    ensures Read(src, pos).err.None? ==> Read(src, pos).next > pos
    ensures Read(src, pos).err.Some? ==> Read(src, pos).next == |src.lines|
  {
  }

  /** Once the lines are used up every read gives the same error again and reads nothing. */
  lemma ReadSticky(src: Source)
    ensures Read(src, |src.lines|) == Reading("", Some(EndError(src)), |src.lines|, 0)
  {
  }

  /** A line without a trailing backslash is an input by itself. */
  lemma SingleLine(src: Source, pos: nat)
    requires pos < |src.lines| && !Continues(src.lines[pos])
    ensures Read(src, pos) == Reading(src.lines[pos], None, pos + 1, 0)
  {
    var rest := src.lines[pos..];
    assert rest[0] == src.lines[pos];
    assert Pieces(rest, 1) == [src.lines[pos]];
  }

  /** A continued line and its successor are joined by a newline, the backslash dropped. */
  lemma TwoLines(src: Source, pos: nat)
    requires pos + 1 < |src.lines| && Continues(src.lines[pos]) && !Continues(src.lines[pos + 1])
    ensures Read(src, pos) == Reading(TrimSuffix(src.lines[pos], "\\") + "\n" + src.lines[pos + 1], None, pos + 2, 1)
  {
    var rest := src.lines[pos..];
    assert rest[0] == src.lines[pos] && rest[1] == src.lines[pos + 1];
    assert Terminator(rest) == 1;
    var p := Pieces(rest, 2);
    assert p == [TrimSuffix(src.lines[pos], "\\"), src.lines[pos + 1]];
    assert p[1..] == [src.lines[pos + 1]];
    assert Join(p, "\n") == p[0] + "\n" + Join(p[1..], "\n");
    assert Read(src, pos).input == Join(p, "\n");
  }
}
