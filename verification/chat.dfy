/**
 * The chat panel of the terminal front end (internal/tui/chat.go): the list of chat
 * messages and the buffer of the assistant answer being streamed. Rendering (glamour,
 * lipgloss, the viewport and its scrolling) is not modelled; only the state the panel
 * keeps is.
 */
module Chat {
  import opened Wrappers
  import opened Text
  import opened TuiEvents

  datatype Role = RoleUser | RoleAssistant | RoleTool | RoleSystem

  datatype ChatMessage = ChatMessage(role: Role, content: string)

  /** The state of the panel: its messages, the streamed text not yet finalised, and its size. */
  datatype ChatState = ChatState(messages: seq<ChatMessage>, streaming: string, width: int, height: int)

  const Cross: string := "\U{2717}"
  const Check: string := "\U{2713}"
  const PromptHead: string := "[PERMISSION]"

  /** What a backward search of the message list looks for. */
  datatype Target =
    | ToolOf(name: string)  // a tool line of that tool: role Tool, content starting "> " + name
    | Prompt                // a permission prompt: role System, content starting "[PERMISSION]"

  predicate Matches(m: ChatMessage, t: Target) {
    match t
    case ToolOf(name) => m.role == RoleTool && HasPrefix(m.content, "> " + name)
    case Prompt => m.role == RoleSystem && HasPrefix(m.content, PromptHead)
  }

  /** The most recent message the search finds, or -1 when there is none. */
  function LastMatch(msgs: seq<ChatMessage>, t: Target): (r: int)
    ensures -1 <= r < |msgs|
    ensures r != -1 ==> Matches(msgs[r], t)
    ensures forall j :: r < j < |msgs| ==> !Matches(msgs[j], t)
    decreases |msgs|
  {
    if msgs == [] then -1
    else if Matches(msgs[|msgs| - 1], t) then |msgs| - 1
    else LastMatch(msgs[..|msgs| - 1], t)
  }

  /** The tool line a ToolStartMsg appends. */
  function ToolStartLine(name: string, args: string): string {
    "> " + name + " " + args
  }

  /** What a tool line becomes once its result is in. */
  function ToolDoneLine(name: string, error: string): string {
    "> " + name + " " + (if error != "" then Cross else Check)
  }

  function PermissionPrompt(toolName: string, preview: string): string {
    PromptHead + " " + toolName + "\n" + preview + "\n[y] allow  [n] deny"
  }

  function Verdict(allowed: bool): string {
    if allowed then "\n-> Allowed" else "\n-> Denied"
  }

  /** One call of ChatModel.Update, on the state it keeps. */
  function ChatStep(s: ChatState, msg: Msg): ChatState {
    match msg
    case WindowSize(w, h) => s.(width := w, height := h)
    case Event(e) =>
      (match e
       case TokenMsg(c) => s.(streaming := s.streaming + c)
       case AgentDoneMsg(_) =>
         if s.streaming != "" then
           ChatState(s.messages + [ChatMessage(RoleAssistant, s.streaming)], "", s.width, s.height)
         else s
       case ToolStartMsg(_, name, args) =>
         s.(messages := s.messages + [ChatMessage(RoleTool, ToolStartLine(name, args))])
       case ToolResultMsg(_, name, _, error) =>
         var i := LastMatch(s.messages, ToolOf(name));
         if i == -1 then s
         else s.(messages := s.messages[i := ChatMessage(RoleTool, ToolDoneLine(name, error))])
       case PermissionRequestMsg(_, toolName, preview, _) =>
         s.(messages := s.messages + [ChatMessage(RoleSystem, PermissionPrompt(toolName, preview))])
       case PermissionResponseMsg(allowed) =>
         var i := LastMatch(s.messages, Prompt);
         if i == -1 then s
         else s.(messages := s.messages[i := s.messages[i].(content := s.messages[i].content + Verdict(allowed))])
       case _ => s)
    case _ => s
  }

  /** A sequence of Update calls. */
  function ChatRun(s: ChatState, msgs: seq<Msg>): ChatState
    decreases |msgs|
  {
    if msgs == [] then s else ChatStep(ChatRun(s, msgs[..|msgs| - 1]), msgs[|msgs| - 1])
  }

  class ChatModel {
    var messages: seq<ChatMessage>
    var streaming: string
    var width: int
    var height: int

    ghost function State(): ChatState
      reads this
    {
      ChatState(messages, streaming, width, height)
    }

    /** NewChatModel: no messages, nothing streamed, no size yet. */
    constructor ()
      ensures State() == ChatState([], "", 0, 0)
    {
      messages, streaming, width, height := [], "", 0, 0;
    }

    /** AddUserMessage appends one user message. */
    method AddUserMessage(content: string)
      modifies this
      ensures State() == old(State()).(messages := old(messages) + [ChatMessage(RoleUser, content)])
    {
      messages := messages + [ChatMessage(RoleUser, content)];
    }

    /** AddSystemMessage appends one system message (the App reports agent errors with it). */
    method AddSystemMessage(content: string)
      modifies this
      ensures State() == old(State()).(messages := old(messages) + [ChatMessage(RoleSystem, content)])
    {
      messages := messages + [ChatMessage(RoleSystem, content)];
    }

    method SetSize(w: int, h: int)
      modifies this
      ensures State() == old(State()).(width := w, height := h)
    {
      width, height := w, h;
    }

    /** The backward search loops of Update. */
    method FindLast(t: Target) returns (i: int)
      ensures i == LastMatch(messages, t)
    {
      i := |messages| - 1;
      while i >= 0 && !Matches(messages[i], t)
        invariant -1 <= i < |messages|
        invariant LastMatch(messages, t) == LastMatch(messages[..i + 1], t)
        decreases i
      {
        assert messages[..i + 1][..i] == messages[..i];
        i := i - 1;
      }
      if i >= 0 {
        assert messages[..i + 1][i] == messages[i];
      }
    }

    method Update(msg: Msg)
      modifies this
      ensures State() == ChatStep(old(State()), msg)
    {
      match msg {
        case WindowSize(w, h) =>
          SetSize(w, h);
        case Event(e) =>
          match e {
            case TokenMsg(c) =>
              streaming := streaming + c;
            case AgentDoneMsg(_) =>
              if |streaming| > 0 {
                messages := messages + [ChatMessage(RoleAssistant, streaming)];
                streaming := "";
              }
            case ToolStartMsg(_, name, args) =>
              messages := messages + [ChatMessage(RoleTool, ToolStartLine(name, args))];
            case ToolResultMsg(_, name, _, error) =>
              var i := FindLast(ToolOf(name));
              if i >= 0 {
                messages := messages[i := ChatMessage(RoleTool, ToolDoneLine(name, error))];
              }
            case PermissionRequestMsg(_, toolName, preview, _) =>
              messages := messages + [ChatMessage(RoleSystem, PermissionPrompt(toolName, preview))];
            case PermissionResponseMsg(allowed) =>
              var i := FindLast(Prompt);
              if i >= 0 {
                messages := messages[i := messages[i].(content := messages[i].content + Verdict(allowed))];
              }
            case _ =>
          }
        case _ =>
      }
    }
  }

  // ---------------------------------------------------------------------------------------
  // What the updates promise

  /** Tokens go to the streaming buffer and leave the message list alone. */
  lemma TokenBuffers(s: ChatState, c: string)
    ensures ChatStep(s, Event(TokenMsg(c))).messages == s.messages
    ensures ChatStep(s, Event(TokenMsg(c))).streaming == s.streaming + c
  {
  }

  /** Finishing a turn moves a non-empty buffer into one assistant message and empties it. */
  lemma DoneFinalizes(s: ChatState, err: Option<string>)
    ensures var t := ChatStep(s, Event(AgentDoneMsg(err)));
      && t.streaming == ""
      && (s.streaming != "" ==> t.messages == s.messages + [ChatMessage(RoleAssistant, s.streaming)])
      && (s.streaming == "" ==> t.messages == s.messages)
  {
  }

  /** The token events of a streamed answer. */
  function TokenEvents(tokens: seq<string>): (r: seq<Msg>)
    ensures |r| == |tokens|
    ensures forall i :: 0 <= i < |tokens| ==> r[i] == Event(TokenMsg(tokens[i]))
    decreases |tokens|
  {
    if tokens == [] then [] else TokenEvents(tokens[..|tokens| - 1]) + [Event(TokenMsg(tokens[|tokens| - 1]))]
  }

  /** A stream of tokens accumulates their concatenation and adds no message. */
  lemma {:induction false} StreamAccumulates(s: ChatState, tokens: seq<string>)
    ensures ChatRun(s, TokenEvents(tokens)) == s.(streaming := s.streaming + Concat(tokens))
    decreases |tokens|
  {
    if tokens != [] {
      var pre := tokens[..|tokens| - 1];
      var evs := TokenEvents(tokens);
      assert evs[..|evs| - 1] == TokenEvents(pre);
      StreamAccumulates(s, pre);
      Assoc(s.streaming, Concat(pre), tokens[|tokens| - 1]);
    }
  }

  /**
   * A whole answer: from an empty buffer, its tokens followed by the end of the turn add
   * exactly one assistant message holding all of them, when there was any text.
   */
  lemma AnswerBecomesOneMessage(s: ChatState, tokens: seq<string>, err: Option<string>)
    requires s.streaming == ""
    ensures var t := ChatRun(s, TokenEvents(tokens) + [Event(AgentDoneMsg(err))]);
      && t.streaming == ""
      && t.messages == if Concat(tokens) == "" then s.messages
                       else s.messages + [ChatMessage(RoleAssistant, Concat(tokens))]
  {
    var evs := TokenEvents(tokens) + [Event(AgentDoneMsg(err))];
    assert evs[..|evs| - 1] == TokenEvents(tokens);
    StreamAccumulates(s, tokens);
    var mid := ChatRun(s, TokenEvents(tokens));
    assert mid.streaming == Concat(tokens) && mid.messages == s.messages;
    assert ChatRun(s, evs) == ChatStep(mid, Event(AgentDoneMsg(err)));
  }

  /** A result rewrites the most recent tool line of that tool, and nothing else. */
  lemma ResultMarksLastToolLine(s: ChatState, id: string, name: string, result: string, error: string)
    ensures var t := ChatStep(s, Event(ToolResultMsg(id, name, result, error)));
      var i := LastMatch(s.messages, ToolOf(name));
      && |t.messages| == |s.messages| && t.streaming == s.streaming
      && (forall j :: 0 <= j < |s.messages| && j != i ==> t.messages[j] == s.messages[j])
      && (i != -1 ==> t.messages[i] == ChatMessage(RoleTool, ToolDoneLine(name, error)))
      && (forall j :: i < j < |s.messages| ==> !Matches(s.messages[j], ToolOf(name)))
  {
  }

  /** An answer is recorded on the most recent prompt, and nothing else changes. */
  lemma ResponseMarksLastPrompt(s: ChatState, allowed: bool)
    ensures var t := ChatStep(s, Event(PermissionResponseMsg(allowed)));
      var i := LastMatch(s.messages, Prompt);
      && |t.messages| == |s.messages| && t.streaming == s.streaming
      && (forall j :: 0 <= j < |s.messages| && j != i ==> t.messages[j] == s.messages[j])
      && (i != -1 ==> t.messages[i] == s.messages[i].(content := s.messages[i].content + Verdict(allowed)))
      && (i != -1 ==> Matches(t.messages[i], Prompt))
  {
    var i := LastMatch(s.messages, Prompt);
    if i != -1 {
      var m := s.messages[i];
      assert HasPrefix(m.content + Verdict(allowed), PromptHead) by {
        assert (m.content + Verdict(allowed))[..|PromptHead|] == m.content[..|PromptHead|];
      }
    }
  }

  /** The message list never shrinks, whatever the updates. */
  lemma {:induction false} MessagesNeverShrink(s: ChatState, msgs: seq<Msg>)
    ensures |ChatRun(s, msgs).messages| >= |s.messages|
    decreases |msgs|
  {
    if msgs != [] {
      MessagesNeverShrink(s, msgs[..|msgs| - 1]);
    }
  }

  /** Messages already in the list keep their role. */
  lemma {:induction false} RolesStay(s: ChatState, msgs: seq<Msg>, j: int)
    requires 0 <= j < |s.messages|
    ensures |ChatRun(s, msgs).messages| >= |s.messages|
    ensures ChatRun(s, msgs).messages[j].role == s.messages[j].role
    decreases |msgs|
  {
    if msgs != [] {
      RolesStay(s, msgs[..|msgs| - 1], j);
    }
  }
}
