/**
 * The status bar of the terminal front end (internal/tui/statusbar.go): one row with the
 * program name and version on the left, the model in the middle and the working directory
 * on the right, the free space split evenly between the two gaps.
 *
 * Widths are counted in characters; the styling that colours the row is not modelled.
 */
module StatusBar {
  import opened Text
  import opened TuiEvents

  /** max(10, width / 3), with Go's division truncating toward zero. */
  function MaxCWD(width: int): (m: int)
    ensures m >= 10
  {
    var q := if width >= 0 then width / 3 else -((-width) / 3);
    if q < 10 then 10 else q
  }

  /** truncateCWD: a directory too long for its third of the bar keeps its end, behind "...". */
  function TruncateCWD(cwd: string, width: int): (r: string)
    ensures |cwd| <= MaxCWD(width) ==> r == cwd
    ensures |cwd| > MaxCWD(width) ==>
      && |r| == MaxCWD(width)
      && HasPrefix(r, "...")
      && HasSuffix(cwd, r[3..])
    ensures |r| <= MaxCWD(width)
  {
    var m := MaxCWD(width);
    if |cwd| <= m then cwd else "..." + cwd[|cwd| - (m - 3)..]
  }

  /** The two gaps of a row with `total` free cells, as View splits them. */
  function Pads(total: int): (p: (nat, nat))
    requires total >= 2
    ensures p.0 + p.1 == total
    ensures p.0 <= p.1 <= p.0 + 1
  {
    (total / 2, total - total / 2)
  }

  /** View's row before styling: empty when there is no width. */
  function Row(width: int, version: string, model: string, cwd: string): (row: string) {
    if width <= 0 then ""
    else
      var left := "stormtrooper " + version;
      var right := TruncateCWD(cwd, width);
      var total := width - (|left| + |model| + |right|);
      if total < 2 then left + " " + model + " " + right
      else
        var (l, r) := Pads(total);
        left + Repeat(' ', l) + model + Repeat(' ', r) + right
  }

  class StatusBarModel {
    var width: int
    const version: string
    const model: string
    const cwd: string

    constructor (version: string, model: string, cwd: string)
      ensures width == 0 && this.version == version && this.model == model && this.cwd == cwd
    {
      width := 0;
      this.version, this.model, this.cwd := version, model, cwd;
    }

    method SetWidth(w: int)
      modifies this
      ensures width == w
    {
      width := w;
    }

    /** Update: only a resize changes anything. */
    method Update(msg: Msg)
      modifies this
      ensures width == if msg.WindowSize? then msg.width else old(width)
    {
      if msg.WindowSize? {
        width := msg.width;
      }
    }

    function View(): string
      reads this
    {
      Row(width, version, model, cwd)
    }
  }

  // ---------------------------------------------------------------------------------------
  // What the row promises

  /** With room to spare the row starts with the program name, ends with the directory and fills the width. */
  lemma RowFillsWidth(width: int, version: string, model: string, cwd: string)
    requires width > 0
    requires width - (|"stormtrooper " + version| + |model| + |TruncateCWD(cwd, width)|) >= 2
    ensures var row := Row(width, version, model, cwd);
      && |row| == width
      && HasPrefix(row, "stormtrooper " + version)
      && HasSuffix(row, TruncateCWD(cwd, width))
  {
    var left := "stormtrooper " + version;
    var right := TruncateCWD(cwd, width);
    var total := width - (|left| + |model| + |right|);
    var (l, r) := Pads(total);
    var row := Row(width, version, model, cwd);
    var mid := Repeat(' ', l) + model + Repeat(' ', r);
    assert row == left + mid + right by {
      Assoc(left, Repeat(' ', l), model);
      Assoc(left, Repeat(' ', l) + model, Repeat(' ', r));
      Assoc(left, mid, right);
    }
    assert (left + mid + right)[..|left|] == left;
    assert (left + mid + right)[|row| - |right|..] == right;
  }

  /** Without room the three segments are joined by single spaces. */
  lemma RowCramped(width: int, version: string, model: string, cwd: string)
    requires width > 0
    requires width - (|"stormtrooper " + version| + |model| + |TruncateCWD(cwd, width)|) < 2
    ensures Row(width, version, model, cwd) == "stormtrooper " + version + " " + model + " " + TruncateCWD(cwd, width)
  {
  }
}
