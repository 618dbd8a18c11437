/**
 * The input box of the terminal front end (internal/tui/input.go): a text area with a
 * send key, a new-line key and a busy mode in which keys are ignored and a spinner turns.
 *
 * The text area is its text and a cursor offset into it. What an ordinary key does to the
 * text area (typing, deleting, moving the cursor) belongs to the widget library and is a
 * parameter, `edit`; the spinner is the number of frames it has advanced.
 */
module InputBox {
  import opened Wrappers
  import opened Text
  import opened TuiEvents

  datatype TextArea = TextArea(value: string, cursor: nat)

  /** InsertString: the text goes in at the cursor, which moves past it. */
  function Insert(t: TextArea, s: string): (r: TextArea)
    ensures |r.value| == |t.value| + |s|
  {
    var c := if t.cursor <= |t.value| then t.cursor else |t.value|;
    TextArea(t.value[..c] + s + t.value[c..], c + |s|)
  }

  datatype InputState = InputState(area: TextArea, focused: bool, width: int, disabled: bool, frame: nat)

  /** One call of InputModel.Update: the new state and the command handed back, if any. */
  function InputStep(s: InputState, msg: Msg, edit: (TextArea, string) -> TextArea): (InputState, Option<Command>) {
    match msg
    case KeyPress(k) =>
      if s.disabled then (s, None)
      else if k == SendKey then
        var text := TrimSpace(s.area.value);
        if text == "" then (s, None)
        else (s.(area := TextArea("", 0)), Some(EmitSend(text)))
      else if k == NewLineKey then (s.(area := Insert(s.area, "\n")), None)
      else (s.(area := edit(s.area, k)), Some(WidgetCmd))
    case WindowSize(w, _) => (s.(width := w), None)
    case SpinnerTick =>
      if s.disabled then (s.(frame := s.frame + 1), Some(Tick)) else (s, None)
    case _ => (s, None)
  }

  class InputModel {
    var area: TextArea
    var focused: bool
    var width: int
    const height: int
    var disabled: bool
    var frame: nat

    ghost function State(): InputState
      reads this
    {
      InputState(area, focused, width, disabled, frame)
    }

    /** NewInputModel: an empty, focused text area three rows high, enabled. */
    constructor ()
      ensures State() == InputState(TextArea("", 0), true, 0, false, 0)
      ensures height == 3
    {
      area, focused, width, height, disabled, frame := TextArea("", 0), true, 0, 3, false, 0;
    }

    method Update(msg: Msg, edit: (TextArea, string) -> TextArea) returns (cmd: Option<Command>)
      modifies this
      ensures (State(), cmd) == InputStep(old(State()), msg, edit)
    {
      cmd := None;
      match msg {
        case KeyPress(k) =>
          if disabled {
            return;
          }
          if k == SendKey {
            var text := TrimSpace(area.value);
            if text == "" {
              return;
            }
            area := TextArea("", 0);
            cmd := Some(EmitSend(text));
          } else if k == NewLineKey {
            area := Insert(area, "\n");
          } else {
            area := edit(area, k);
            cmd := Some(WidgetCmd);
          }
        case WindowSize(w, _) =>
          SetWidth(w);
        case SpinnerTick =>
          if disabled {
            frame := frame + 1;
            cmd := Some(Tick);
          }
        case _ =>
      }
    }

    method SetDisabled(d: bool)
      modifies this
      ensures State() == old(State()).(disabled := d)
    {
      disabled := d;
    }

    method Focus()
      modifies this
      ensures State() == old(State()).(focused := true)
    {
      focused := true;
    }

    method Blur()
      modifies this
      ensures State() == old(State()).(focused := false)
    {
      focused := false;
    }

    method SetWidth(w: int)
      modifies this
      ensures State() == old(State()).(width := w)
    {
      width := w;
    }
  }

  // ---------------------------------------------------------------------------------------
  // What the updates promise

  /** While busy, no key changes anything or produces a command. */
  lemma DisabledIgnoresKeys(s: InputState, k: string, edit: (TextArea, string) -> TextArea)
    requires s.disabled
    ensures InputStep(s, KeyPress(k), edit) == (s, None)
  {
  }

  /**
   * The send guard: the send key produces a command exactly when the trimmed text is not
   * empty; the command carries that trimmed text, which then neither starts nor ends with
   * white space, and the box is cleared.
   */
  lemma SendGuard(s: InputState, edit: (TextArea, string) -> TextArea)
    requires !s.disabled
    ensures var (t, cmd) := InputStep(s, KeyPress(SendKey), edit);
      && (cmd.Some? <==> TrimSpace(s.area.value) != "")
      && (cmd.Some? ==> cmd.value == EmitSend(TrimSpace(s.area.value)) && t.area.value == "")
      && (cmd.Some? ==> !IsSpace(cmd.value.text[0]) && !IsSpace(cmd.value.text[|cmd.value.text| - 1]))
      && (cmd.None? ==> t == s)
  {
  }

  /** The new-line key inserts one newline at the cursor and sends nothing. */
  lemma NewLineInserts(s: InputState, edit: (TextArea, string) -> TextArea)
    requires !s.disabled && s.area.cursor <= |s.area.value|
    ensures var (t, cmd) := InputStep(s, KeyPress(NewLineKey), edit);
      && cmd.None?
      && t.area.value == s.area.value[..s.area.cursor] + "\n" + s.area.value[s.area.cursor..]
      && t.area.cursor == s.area.cursor + 1
  {
  }

  /** The spinner turns only while the box is busy. */
  lemma SpinnerOnlyWhileBusy(s: InputState, edit: (TextArea, string) -> TextArea)
    ensures var (t, _) := InputStep(s, SpinnerTick, edit);
      t.frame == if s.disabled then s.frame + 1 else s.frame
  {
  }
}
