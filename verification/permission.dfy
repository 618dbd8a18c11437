/**
 * The terminal permission prompt (internal/permission/permission.go). The line the user
 * types is an input: `None` when no line could be read.
 */
module Permission {
  import opened Wrappers
  import opened Text

  /** The text written before reading the answer. */
  function Prompt(toolName: string, preview: string): (p: string)
    ensures HasPrefix(p, "\n[permission] " + toolName + "\n")
    ensures HasSuffix(p, preview + "\n[y/n]: ")
  {
    "\n[permission] " + toolName + "\n" + preview + "\n[y/n]: "
  }

  /** The trimmed answer is non-empty and starts with y or Y. */
  predicate Approves(line: string) {
    var t := TrimSpace(line);
    |t| > 0 && (t[0] == 'y' || t[0] == 'Y')
  }

  /** The decision: no line read means no. */
  function Decide(line: Option<string>): (approved: bool)
    ensures approved <==> line.Some? && Approves(line.value)
  {
    match line
    case None => false
    case Some(l) => Approves(l)
  }

  /**
   * An answer without surrounding white space approves iff it starts with y or Y:
   * so y, Y, yes, Yes approve and n, N, no deny.
   */
  lemma ApprovesWord(w: string)
    requires w != [] && !IsSpace(w[0]) && !IsSpace(w[|w| - 1])
    ensures Approves(w) <==> w[0] == 'y' || w[0] == 'Y'
  {
    TrimSpaceFixed(w);
  }

  /** Leading white space before the answer does not change it. */
  lemma {:induction false} ApprovesIgnoresLeadingSpace(c: char, line: string)
    requires IsSpace(c)
    ensures Approves([c] + line) == Approves(line)
  {
    assert ([c] + line)[1..] == line;
  }

  class Checker {
    /** Everything written to the output stream, one entry per write. */
    var out: seq<string>

    constructor ()
      ensures out == []
    {
      out := [];
    }

    /** Check: write the prompt, then decide on the line read; the name and preview play no part. */
    method Check(toolName: string, preview: string, line: Option<string>) returns (approved: bool)
      modifies this
      ensures out == old(out) + [Prompt(toolName, preview)]
      ensures approved == Decide(line)
    {
      out := out + [Prompt(toolName, preview)];
      if line.None? {
        return false;
      }
      var t := TrimSpace(line.value);
      approved := |t| > 0 && (t[0] == 'y' || t[0] == 'Y');
    }
  }
}
