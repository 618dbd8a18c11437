/**
 * The top-level model of the terminal front end (internal/tui/app.go): it routes messages
 * to the chat panel, the input box, the sidebar and the status bar, keeps the focus, the
 * busy flag and the pending permission request, and re-arms the listener on the bridge's
 * event channel.
 *
 * The runtime's view of the event channel is an abstract count of outstanding WaitForEvent
 * listeners: a message that came off the channel used one up, and every WaitForEvent in
 * the returned batch arms one more. The permission reply channels are recorded as the list
 * of answers sent, each with the number of the channel it went to.
 */
module App {
  import opened Wrappers
  import opened TuiEvents
  import opened Chat
  import opened InputBox
  import opened Sidebar
  import opened StatusBar

  datatype Focus = FocusInput | FocusChat

  const StatusBarHeight: int := 1
  const InputHeight: int := 5

  /** recalcLayout: the chat panel gets what the sidebar, the status bar and the input box leave. */
  function ChatSize(width: int, height: int): (size: (int, int))
    ensures size.0 == if width - SidebarWidth < 10 then 10 else width - SidebarWidth
    ensures size.1 == if height - StatusBarHeight - InputHeight < 3 then 3 else height - StatusBarHeight - InputHeight
    ensures size.0 >= 10 && size.1 >= 3
  {
    var w := width - SidebarWidth;
    var h := height - StatusBarHeight - InputHeight;
    (if w < 10 then 10 else w, if h < 3 then 3 else h)
  }

  /** An answer sent on a permission request's reply channel. */
  datatype Answer = Answer(response: nat, allowed: bool)

  datatype AppState = AppState(
    chat: ChatState,
    input: InputState,
    sidebar: SidebarState,
    statusWidth: int,
    width: int,
    height: int,
    focus: Focus,
    agentBusy: bool,
    permReq: Option<AgentEvent>,
    answers: seq<Answer>,
    listeners: nat)

  /** setFocus: the input box is focused exactly when it holds the focus. */
  function WithFocus(s: AppState, f: Focus): AppState {
    s.(focus := f, input := s.input.(focused := f == FocusInput))
  }

  function Toggled(f: Focus): Focus {
    if f == FocusInput then FocusChat else FocusInput
  }

  /** The messages that came off the bridge's channel through a listener. */
  predicate FromBridge(msg: Msg) {
    msg.Event? && !msg.event.AgentDoneMsg? && !msg.event.PermissionResponseMsg?
  }

  /** The number of listeners a batch arms. */
  function Armed(cmds: seq<Command>): (n: nat)
    ensures n <= |cmds|
    ensures n == 0 <==> WaitForEvent !in cmds
    decreases |cmds|
  {
    if cmds == [] then 0
    else Armed(cmds[..|cmds| - 1]) + (if cmds[|cmds| - 1] == WaitForEvent then 1 else 0)
  }

  /** The listener count after a message has been handled and its batch returned. */
  function Listening(listeners: nat, msg: Msg, cmds: seq<Command>): nat {
    (if FromBridge(msg) && listeners > 0 then listeners - 1 else listeners) + Armed(cmds)
  }

  function Commands(cmd: Option<Command>): seq<Command> {
    if cmd.Some? then [cmd.value] else []
  }

  /** handlePermissionKey: y and n answer once and clear the request, Ctrl+C quits, the rest is ignored. */
  function PermissionKey(s: AppState, k: string): (AppState, seq<Command>)
    requires s.permReq.Some? && s.permReq.value.PermissionRequestMsg?
  {
    var id := s.permReq.value.response;
    if k == PermAllowKey then
      (s.(answers := s.answers + [Answer(id, true)], permReq := None,
          chat := ChatStep(s.chat, Event(PermissionResponseMsg(true)))), [])
    else if k == PermDenyKey then
      (s.(answers := s.answers + [Answer(id, false)], permReq := None,
          chat := ChatStep(s.chat, Event(PermissionResponseMsg(false)))), [])
    else if k == QuitKey then (s, [Quit])
    else (s, [])
  }

  /** The key cases of Update. */
  function KeyStep(s: AppState, k: string, edit: (TextArea, string) -> TextArea): (AppState, seq<Command>)
    requires s.permReq.Some? ==> s.permReq.value.PermissionRequestMsg?
  {
    if s.permReq.Some? then PermissionKey(s, k)
    else if k == QuitKey then (s, [Quit])
    else if k == TabKey || k == FocusChatKey then (WithFocus(s, Toggled(s.focus)), [])
    else if s.focus == FocusInput then
      var (input, cmd) := InputStep(s.input, KeyPress(k), edit);
      (s.(input := input), Commands(cmd))
    else (s.(chat := ChatStep(s.chat, KeyPress(k))), [])
  }

  /** The batch SendMsg returns as the code stands: it arms a second listener. */
  function SendBatchAsWritten(text: string): seq<Command> {
    [RunAgent(text), WaitForEvent, Blink, Tick]
  }

  /** The batch SendMsg returns once the extra listener is dropped: Init's listener stays the only one. */
  function SendBatch(text: string): seq<Command> {
    [RunAgent(text), Blink, Tick]
  }

  /** The end of a turn: not busy, input enabled and focused, the error shown, the stream finalised. */
  function AgentDone(s: AppState, err: Option<string>): AppState {
    var s1 := WithFocus(s.(agentBusy := false, input := s.input.(disabled := false),
                          sidebar := s.sidebar.(agentBusy := false)), FocusInput);
    var chat := if err.Some? then s1.chat.(messages := s1.chat.messages + [ChatMessage(RoleSystem, "Error: " + err.value)])
                else s1.chat;
    s1.(chat := ChatStep(chat, Event(AgentDoneMsg(err))),
        sidebar := SidebarStep(s1.sidebar, Event(AgentDoneMsg(err)), MaxTools))
  }

  /** What Update does to the state and the batch it returns, leaving the listener count aside. */
  function Routed(s: AppState, msg: Msg, edit: (TextArea, string) -> TextArea): (AppState, seq<Command>)
    requires s.permReq.Some? ==> s.permReq.value.PermissionRequestMsg?
  {
    match msg
    case WindowSize(w, h) =>
      var (cw, ch) := ChatSize(w, h);
      (s.(width := w, height := h, statusWidth := w,
          chat := s.chat.(width := cw, height := ch),
          sidebar := s.sidebar.(height := ch),
          input := s.input.(width := w)), [])
    case KeyPress(k) => KeyStep(s, k, edit)
    case SendMsg(text) =>
      (s.(chat := s.chat.(messages := s.chat.messages + [ChatMessage(RoleUser, text)]),
          agentBusy := true,
          input := s.input.(disabled := true),
          sidebar := s.sidebar.(agentBusy := true)), SendBatch(text))
    case Event(e) =>
      (match e
       case TokenMsg(_) => (s.(chat := ChatStep(s.chat, msg)), [WaitForEvent])
       case ToolStartMsg(_, _, _) =>
         (s.(chat := ChatStep(s.chat, msg), sidebar := SidebarStep(s.sidebar, msg, MaxTools)), [WaitForEvent])
       case ToolResultMsg(_, _, _, _) =>
         (s.(chat := ChatStep(s.chat, msg), sidebar := SidebarStep(s.sidebar, msg, MaxTools)), [WaitForEvent])
       case PermissionRequestMsg(_, _, _, _) =>
         (s.(permReq := Some(e), chat := ChatStep(s.chat, msg)), [WaitForEvent])
       case AgentDoneMsg(err) => (AgentDone(s, err), [])
       case SubAgentSpawnMsg(_) => (s.(chat := ChatStep(s.chat, msg)), [WaitForEvent])
       case SubAgentDoneMsg => (s, [WaitForEvent])
       case PermissionResponseMsg(_) => Forwarded(s, msg, edit))
    case _ => Forwarded(s, msg, edit)
  }

  /** Messages no case claims go to the input box and the sidebar. */
  function Forwarded(s: AppState, msg: Msg, edit: (TextArea, string) -> TextArea): (AppState, seq<Command>) {
    var (input, inputCmd) := InputStep(s.input, msg, edit);
    var sidebar := SidebarStep(s.sidebar, msg, MaxTools);
    (s.(input := input, sidebar := sidebar), Commands(inputCmd) + (if msg.SpinnerTick? then [Tick] else []))
  }

  /** One call of App.Update, with the listener accounting. */
  function AppStep(s: AppState, msg: Msg, edit: (TextArea, string) -> TextArea): (AppState, seq<Command>)
    requires s.permReq.Some? ==> s.permReq.value.PermissionRequestMsg?
  {
    var (t, cmds) := Routed(s, msg, edit);
    (t.(listeners := Listening(s.listeners, msg, cmds)), cmds)
  }

  /** App.Update as the code stands, with SendMsg's extra listener. */
  function AppStepAsWritten(s: AppState, msg: Msg, edit: (TextArea, string) -> TextArea): (AppState, seq<Command>)
    requires s.permReq.Some? ==> s.permReq.value.PermissionRequestMsg?
  {
    if msg.SendMsg? then
      var t := Routed(s, msg, edit).0;
      var cmds := SendBatchAsWritten(msg.text);
      (t.(listeners := Listening(s.listeners, msg, cmds)), cmds)
    else AppStep(s, msg, edit)
  }

  /** The state App.New builds and Init's one listener. */
  function Initial(): (s: AppState)
    ensures s.listeners == 1 && s.focus == FocusInput && s.permReq.None?
  {
    AppState(ChatState([], "", 0, 0), InputState(TextArea("", 0), true, 0, false, 0),
             SidebarState([], false, 0, 0), 0, 0, 0, FocusInput, false, None, [], 1)
  }

  /** A run of Updates as the code stands, SendMsg arming its extra listener. */
  function AppRunAsWritten(s: AppState, msgs: seq<Msg>, edit: (TextArea, string) -> TextArea): (t: AppState)
    requires s.permReq.Some? ==> s.permReq.value.PermissionRequestMsg?
    ensures t.permReq.Some? ==> t.permReq.value.PermissionRequestMsg?
    decreases |msgs|
  {
    if msgs == [] then s else AppStepAsWritten(AppRunAsWritten(s, msgs[..|msgs| - 1], edit), msgs[|msgs| - 1], edit).0
  }

  /** The number of SendMsg messages in a run. */
  function Sends(msgs: seq<Msg>): nat
    decreases |msgs|
  {
    if msgs == [] then 0 else Sends(msgs[..|msgs| - 1]) + (if msgs[|msgs| - 1].SendMsg? then 1 else 0)
  }

  function AppRun(s: AppState, msgs: seq<Msg>, edit: (TextArea, string) -> TextArea): (t: AppState)
    requires s.permReq.Some? ==> s.permReq.value.PermissionRequestMsg?
    ensures t.permReq.Some? ==> t.permReq.value.PermissionRequestMsg?
    decreases |msgs|
  {
    if msgs == [] then s else AppStep(AppRun(s, msgs[..|msgs| - 1], edit), msgs[|msgs| - 1], edit).0
  }

  // ---------------------------------------------------------------------------------------
  // The App object

  class AppModel {
    const chat: ChatModel
    const input: InputModel
    const sidebar: SidebarModel
    const statusbar: StatusBarModel
    var width: int
    var height: int
    var focus: Focus
    var agentBusy: bool
    var permReq: Option<AgentEvent>
    var answers: seq<Answer>
    ghost var listeners: nat

    ghost predicate Valid()
      reads this, sidebar
    {
      && (permReq.Some? ==> permReq.value.PermissionRequestMsg?)
      && sidebar.Valid() && sidebar.maxTools == MaxTools
    }

    ghost function State(): AppState
      reads this, chat, input, sidebar, statusbar
    {
      AppState(chat.State(), input.State(), sidebar.State(), statusbar.width, width, height,
               focus, agentBusy, permReq, answers, listeners)
    }

    /** New: fresh panels, the input focused, nothing pending; Init's listener counted. */
    constructor (version: string, modelName: string, cwd: string, projectDir: string, memoryLoaded: bool)
      ensures Valid() && State() == Initial()
      ensures fresh(chat) && fresh(input) && fresh(sidebar) && fresh(statusbar)
    {
      chat := new ChatModel();
      input := new InputModel();
      sidebar := new SidebarModel(projectDir, memoryLoaded, 0, modelName);
      statusbar := new StatusBarModel(version, modelName, cwd);
      width, height, focus, agentBusy, permReq, answers := 0, 0, FocusInput, false, None, [];
      listeners := 1;
    }

    method SetFocus(f: Focus)
      modifies this, input
      ensures State() == WithFocus(old(State()), f)
      ensures Valid() == old(Valid())
    {
      focus := f;
      if f == FocusInput {
        input.Focus();
      } else {
        input.Blur();
      }
    }

    method ToggleFocus()
      modifies this, input
      ensures State() == WithFocus(old(State()), Toggled(old(focus)))
      ensures Valid() == old(Valid())
    {
      if focus == FocusInput {
        SetFocus(FocusChat);
      } else {
        SetFocus(FocusInput);
      }
    }

    method RecalcLayout()
      modifies statusbar, chat, sidebar, input
      ensures var (cw, ch) := ChatSize(width, height);
        State() == old(State()).(statusWidth := width,
                                 chat := old(chat.State()).(width := cw, height := ch),
                                 sidebar := old(sidebar.State()).(height := ch),
                                 input := old(input.State()).(width := width))
    {
      var (cw, ch) := ChatSize(width, height);
      statusbar.SetWidth(width);
      chat.SetSize(cw, ch);
      sidebar.SetHeight(ch);
      input.SetWidth(width);
    }

    method HandlePermissionKey(k: string) returns (cmds: seq<Command>)
      requires Valid() && permReq.Some?
      modifies this, chat
      ensures (State(), cmds) == PermissionKey(old(State()), k)
      ensures Valid()
    {
      cmds := [];
      var id := permReq.value.response;
      if k == PermAllowKey {
        answers := answers + [Answer(id, true)];
        permReq := None;
        chat.Update(Event(PermissionResponseMsg(true)));
      } else if k == PermDenyKey {
        answers := answers + [Answer(id, false)];
        permReq := None;
        chat.Update(Event(PermissionResponseMsg(false)));
      } else if k == QuitKey {
        cmds := [Quit];
      }
    }

    method HandleKey(k: string, edit: (TextArea, string) -> TextArea) returns (cmds: seq<Command>)
      requires Valid()
      modifies this, chat, input
      ensures (State(), cmds) == KeyStep(old(State()), k, edit)
      ensures Valid()
    {
      if permReq.Some? {
        cmds := HandlePermissionKey(k);
        return;
      }
      cmds := [];
      if k == QuitKey {
        cmds := [Quit];
      } else if k == TabKey || k == FocusChatKey {
        ToggleFocus();
      } else if focus == FocusInput {
        var cmd := input.Update(KeyPress(k), edit);
        cmds := Commands(cmd);
      } else {
        chat.Update(KeyPress(k));
      }
    }

    method HandleAgentDone(err: Option<string>)
      requires Valid()
      modifies this, chat, input, sidebar
      ensures State() == AgentDone(old(State()), err)
      ensures Valid()
    {
      agentBusy := false;
      input.SetDisabled(false);
      sidebar.SetAgentBusy(false);
      SetFocus(FocusInput);
      if err.Some? {
        chat.AddSystemMessage("Error: " + err.value);
      }
      chat.Update(Event(AgentDoneMsg(err)));
      var _ := sidebar.Update(Event(AgentDoneMsg(err)));
    }

    method HandleForwarded(msg: Msg, edit: (TextArea, string) -> TextArea) returns (cmds: seq<Command>)
      requires Valid()
      modifies input, sidebar
      ensures (State(), cmds) == Forwarded(old(State()), msg, edit)
      ensures Valid()
    {
      var inputCmd := input.Update(msg, edit);
      var sidebarCmd := sidebar.Update(msg);
      cmds := Commands(inputCmd) + Commands(sidebarCmd);
    }

    /** Route one message without the listener accounting. */
    method Route(msg: Msg, edit: (TextArea, string) -> TextArea) returns (cmds: seq<Command>)
      requires Valid()
      modifies this, chat, input, sidebar, statusbar
      ensures (State(), cmds) == Routed(old(State()), msg, edit)
      ensures Valid()
    {
      match msg {
        case WindowSize(w, h) =>
          width, height := w, h;
          RecalcLayout();
          cmds := [];
        case KeyPress(k) =>
          cmds := HandleKey(k, edit);
        case SendMsg(text) =>
          chat.AddUserMessage(text);
          agentBusy := true;
          input.SetDisabled(true);
          sidebar.SetAgentBusy(true);
          cmds := SendBatch(text);
        case Event(e) =>
          cmds := HandleEvent(e, edit);
        case _ =>
          cmds := HandleForwarded(msg, edit);
      }
    }

    /** Route's cases for the bridge's events. */
    method HandleEvent(e: AgentEvent, edit: (TextArea, string) -> TextArea) returns (cmds: seq<Command>)
      requires Valid()
      modifies this, chat, input, sidebar, statusbar
      ensures (State(), cmds) == Routed(old(State()), Event(e), edit)
      ensures Valid()
    {
      var msg := Event(e);
      match e {
        case TokenMsg(_) =>
          chat.Update(msg);
          cmds := [WaitForEvent];
        case ToolStartMsg(_, _, _) =>
          chat.Update(msg);
          var _ := sidebar.Update(msg);
          cmds := [WaitForEvent];
        case ToolResultMsg(_, _, _, _) =>
          chat.Update(msg);
          var _ := sidebar.Update(msg);
          cmds := [WaitForEvent];
        case PermissionRequestMsg(_, _, _, _) =>
          permReq := Some(e);
          chat.Update(msg);
          cmds := [WaitForEvent];
        case AgentDoneMsg(err) =>
          HandleAgentDone(err);
          cmds := [];
        case SubAgentSpawnMsg(_) =>
          chat.Update(msg);
          cmds := [WaitForEvent];
        case SubAgentDoneMsg =>
          cmds := [WaitForEvent];
        case PermissionResponseMsg(_) =>
          cmds := HandleForwarded(msg, edit);
      }
    }

    /**
     * Update. A message from the bridge's channel means the runtime ran one listener to
     * get it; the listener count then follows the WaitForEvent commands handed back.
     */
    method Update(msg: Msg, edit: (TextArea, string) -> TextArea) returns (cmds: seq<Command>)
      requires Valid()
      modifies this, chat, input, sidebar, statusbar
      ensures (State(), cmds) == AppStep(old(State()), msg, edit)
      ensures Valid()
    {
      ghost var before := listeners;
      cmds := Route(msg, edit);
      listeners := Listening(before, msg, cmds);
    }
  }

  // ---------------------------------------------------------------------------------------
  // What Update promises

  /** The chat panel gets the rest of the window, never less than 10 by 3. */
  lemma LayoutClamps(s: AppState, w: int, h: int, edit: (TextArea, string) -> TextArea)
    requires s.permReq.Some? ==> s.permReq.value.PermissionRequestMsg?
    ensures var t := AppStep(s, WindowSize(w, h), edit).0;
      && t.chat.width == (if w - 30 < 10 then 10 else w - 30)
      && t.chat.height == (if h - 6 < 3 then 3 else h - 6)
      && t.sidebar.height == t.chat.height && t.statusWidth == w && t.input.width == w
  {
  }

  /** Tab and Esc each switch the focus to the other panel when nothing is pending. */
  lemma FocusToggles(s: AppState, k: string, edit: (TextArea, string) -> TextArea)
    requires s.permReq.None? && (k == TabKey || k == FocusChatKey)
    ensures var t := AppStep(s, KeyPress(k), edit).0;
      t.focus != s.focus && t.input.focused == (t.focus == FocusInput)
  {
  }

  /**
   * A pending permission request takes every key: y and n send exactly one answer on its
   * channel and clear it, Ctrl+C quits without answering, and every other key changes
   * nothing.
   */
  lemma PermissionKeys(s: AppState, k: string, edit: (TextArea, string) -> TextArea)
    requires s.permReq.Some? && s.permReq.value.PermissionRequestMsg?
    ensures var (t, cmds) := AppStep(s, KeyPress(k), edit);
      var id := s.permReq.value.response;
      && (k == PermAllowKey ==> t.answers == s.answers + [Answer(id, true)] && t.permReq.None? && cmds == [])
      && (k == PermDenyKey ==> t.answers == s.answers + [Answer(id, false)] && t.permReq.None? && cmds == [])
      && (k == QuitKey ==> t == s && cmds == [Quit])
      && (k != PermAllowKey && k != PermDenyKey && k != QuitKey ==> t == s && cmds == [])
  {
  }

  /** The end of a turn adds one error line exactly when the agent failed, and unlocks the input. */
  lemma DoneReportsError(s: AppState, err: Option<string>, edit: (TextArea, string) -> TextArea)
    requires s.permReq.Some? ==> s.permReq.value.PermissionRequestMsg?
    ensures var (t, cmds) := AppStep(s, Event(AgentDoneMsg(err)), edit);
      && !t.agentBusy && !t.input.disabled && !t.sidebar.agentBusy && t.focus == FocusInput
      && cmds == []
      && t.chat.streaming == ""
      && t.chat.messages == s.chat.messages
                            + (if err.Some? then [ChatMessage(RoleSystem, "Error: " + err.value)] else [])
                            + (if s.chat.streaming != "" then [ChatMessage(RoleAssistant, s.chat.streaming)] else [])
  {
  }

  /** Every message from the bridge arms exactly one new listener; nothing else arms any. */
  lemma OneListenerPerEvent(s: AppState, msg: Msg, edit: (TextArea, string) -> TextArea)
    requires s.permReq.Some? ==> s.permReq.value.PermissionRequestMsg?
    ensures Armed(AppStep(s, msg, edit).1) == if FromBridge(msg) then 1 else 0
  {
    var cmds := AppStep(s, msg, edit).1;
    if !FromBridge(msg) {
      assert WaitForEvent !in cmds;
    }
  }

  /** SendMsg's batch as the code stands arms one listener. */
  lemma ArmedSendAsWritten(text: string)
    ensures Armed(SendBatchAsWritten(text)) == 1
  {
    var b := SendBatchAsWritten(text);
    assert b[..3] == [RunAgent(text), WaitForEvent, Blink];
    assert b[..3][..2] == [RunAgent(text), WaitForEvent];
    assert b[..3][..2][..1] == [RunAgent(text)];
    assert Armed([RunAgent(text)]) == 0;
    assert Armed([RunAgent(text), WaitForEvent]) == 1;
    assert Armed([RunAgent(text), WaitForEvent, Blink]) == 1;
  }

  /** As the code stands, Init's listener and SendMsg's make two outstanding listeners. */
  lemma SendAsWrittenDoublesListeners(text: string, edit: (TextArea, string) -> TextArea)
    ensures AppStepAsWritten(Initial(), SendMsg(text), edit).0.listeners == 2
  {
    ArmedSendAsWritten(text);
  }

  /**
   * As the code stands, every SendMsg leaves one more listener outstanding, whatever bridge
   * events come in between: after Init and any run, there is one listener per message sent
   * plus Init's.
   */
  lemma {:induction false} ListenersPileUpAsWritten(msgs: seq<Msg>, edit: (TextArea, string) -> TextArea)
    ensures AppRunAsWritten(Initial(), msgs, edit).listeners == 1 + Sends(msgs)
    decreases |msgs|
  {
    if msgs != [] {
      var front, m := msgs[..|msgs| - 1], msgs[|msgs| - 1];
      var pre := AppRunAsWritten(Initial(), front, edit);
      ListenersPileUpAsWritten(front, edit);
      if m.SendMsg? {
        ArmedSendAsWritten(m.text);
      } else {
        OneListenerPerEvent(pre, m, edit);
      }
    }
  }

  /** With SendMsg's extra listener dropped, Init's listener stays the only one, whatever arrives. */
  lemma {:induction false} OneListenerAlways(msgs: seq<Msg>, edit: (TextArea, string) -> TextArea)
    ensures AppRun(Initial(), msgs, edit).listeners == 1
    decreases |msgs|
  {
    if msgs != [] {
      var pre := AppRun(Initial(), msgs[..|msgs| - 1], edit);
      OneListenerAlways(msgs[..|msgs| - 1], edit);
      OneListenerPerEvent(pre, msgs[|msgs| - 1], edit);
    }
  }
}
