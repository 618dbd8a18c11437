/**
 * The sidebar of the terminal front end (internal/tui/sidebar.go): the bounded list of
 * recent tool calls, most recent first, and the agent's busy flag. The spinner is kept as
 * the number of frames it has advanced; drawing the panel is not modelled.
 */
module Sidebar {
  import opened Wrappers
  import opened TuiEvents

  datatype ToolCallEntry = ToolCallEntry(name: string, running: bool, error: bool)

  /** The default cap on the tool list. */
  const MaxTools: nat := 10
  const SidebarWidth: int := 30

  /** The first running entry of the named tool, or -1 when there is none. */
  function FirstRunning(entries: seq<ToolCallEntry>, name: string): (r: int)
    ensures -1 <= r < |entries|
    ensures r != -1 ==> entries[r].name == name && entries[r].running
    ensures forall j :: 0 <= j < |entries| && (r == -1 || j < r) ==> !(entries[j].name == name && entries[j].running)
    decreases |entries|
  {
    if entries == [] then -1
    else if entries[0].name == name && entries[0].running then 0
    else
      var r := FirstRunning(entries[1..], name);
      if r == -1 then -1 else r + 1
  }

  /** The list after a ToolStartMsg: the new running entry first, cut to the cap. */
  function Prepended(entries: seq<ToolCallEntry>, name: string, maxTools: nat): seq<ToolCallEntry> {
    var all := [ToolCallEntry(name, true, false)] + entries;
    if |all| > maxTools then all[..maxTools] else all
  }

  /** The list after a ToolResultMsg. */
  function Finished(entries: seq<ToolCallEntry>, name: string, error: string): seq<ToolCallEntry> {
    var i := FirstRunning(entries, name);
    if i == -1 then entries else entries[i := entries[i].(running := false, error := error != "")]
  }

  datatype SidebarState = SidebarState(toolCalls: seq<ToolCallEntry>, agentBusy: bool, height: int, frame: nat)

  /** One call of SidebarModel.Update. */
  function SidebarStep(s: SidebarState, msg: Msg, maxTools: nat): SidebarState {
    match msg
    case Event(ToolStartMsg(_, name, _)) => s.(toolCalls := Prepended(s.toolCalls, name, maxTools))
    case Event(ToolResultMsg(_, name, _, error)) => s.(toolCalls := Finished(s.toolCalls, name, error))
    case Event(AgentDoneMsg(_)) => s.(agentBusy := false)
    case SpinnerTick => s.(frame := s.frame + 1)
    case WindowSize(_, h) => s.(height := h)
    case _ => s
  }

  function SidebarRun(s: SidebarState, msgs: seq<Msg>, maxTools: nat): SidebarState
    decreases |msgs|
  {
    if msgs == [] then s else SidebarStep(SidebarRun(s, msgs[..|msgs| - 1], maxTools), msgs[|msgs| - 1], maxTools)
  }

  class SidebarModel {
    var width: int
    var height: int
    var toolCalls: seq<ToolCallEntry>
    const maxTools: nat
    var agentBusy: bool
    var frame: nat
    const projectDir: string
    const memoryLoaded: bool
    const toolCount: int
    const modelName: string

    ghost predicate Valid()
      reads this
    {
      maxTools > 0 && |toolCalls| <= maxTools
    }

    ghost function State(): SidebarState
      reads this
    {
      SidebarState(toolCalls, agentBusy, height, frame)
    }

    /** NewSidebarModel: width 30, room for ten tool calls, none yet, not busy. */
    constructor (projectDir: string, memoryLoaded: bool, toolCount: int, modelName: string)
      ensures Valid()
      ensures State() == SidebarState([], false, 0, 0)
      ensures width == SidebarWidth && maxTools == MaxTools
      ensures this.projectDir == projectDir && this.memoryLoaded == memoryLoaded
      ensures this.toolCount == toolCount && this.modelName == modelName
    {
      width, height, toolCalls, maxTools, agentBusy, frame := SidebarWidth, 0, [], MaxTools, false, 0;
      this.projectDir, this.memoryLoaded, this.toolCount, this.modelName := projectDir, memoryLoaded, toolCount, modelName;
    }

    /** The forward search loop of the ToolResultMsg case. */
    method FindRunning(name: string) returns (i: int)
      ensures i == FirstRunning(toolCalls, name)
    {
      i := 0;
      while i < |toolCalls| && !(toolCalls[i].name == name && toolCalls[i].running)
        invariant 0 <= i <= |toolCalls|
        invariant forall j :: 0 <= j < i ==> !(toolCalls[j].name == name && toolCalls[j].running)
      {
        i := i + 1;
      }
      if i == |toolCalls| {
        i := -1;
      }
    }

    /** Update; a spinner tick hands back the next tick. */
    method Update(msg: Msg) returns (cmd: Option<Command>)
      requires Valid()
      modifies this
      ensures Valid()
      ensures State() == SidebarStep(old(State()), msg, maxTools)
      ensures cmd == if msg.SpinnerTick? then Some(Tick) else None
      ensures width == old(width)
    {
      cmd := None;
      match msg {
        case Event(ToolStartMsg(_, name, _)) =>
          toolCalls := [ToolCallEntry(name, true, false)] + toolCalls;
          if |toolCalls| > maxTools {
            toolCalls := toolCalls[..maxTools];
          }
        case Event(ToolResultMsg(_, name, _, error)) =>
          var i := FindRunning(name);
          if i != -1 {
            toolCalls := toolCalls[i := toolCalls[i].(running := false, error := error != "")];
          }
        case Event(AgentDoneMsg(_)) =>
          agentBusy := false;
        case SpinnerTick =>
          frame := frame + 1;
          cmd := Some(Tick);
        case WindowSize(_, h) =>
          height := h;
        case _ =>
      }
    }

    method SetAgentBusy(busy: bool)
      modifies this
      ensures State() == old(State()).(agentBusy := busy)
      ensures width == old(width)
    {
      agentBusy := busy;
    }

    method SetHeight(h: int)
      modifies this
      ensures State() == old(State()).(height := h)
      ensures width == old(width)
    {
      height := h;
    }
  }

  // ---------------------------------------------------------------------------------------
  // What the updates promise

  /** A started tool goes first, running; the rest is the old list, oldest entries dropped. */
  lemma StartGoesFirst(entries: seq<ToolCallEntry>, name: string, maxTools: nat)
    requires maxTools > 0 && |entries| <= maxTools
    ensures var r := Prepended(entries, name, maxTools);
      && |r| == (if |entries| < maxTools then |entries| + 1 else maxTools)
      && r[0] == ToolCallEntry(name, true, false)
      && r[1..] == entries[..|r| - 1]
  {
    var all := [ToolCallEntry(name, true, false)] + entries;
    var r := Prepended(entries, name, maxTools);
    assert r == all[..|r|];
    assert all[1..] == entries;
  }

  /** A result finishes the first running entry of that tool and touches nothing else. */
  lemma ResultFinishesOne(entries: seq<ToolCallEntry>, name: string, error: string)
    ensures var r := Finished(entries, name, error);
      var i := FirstRunning(entries, name);
      && |r| == |entries|
      && (forall j :: 0 <= j < |entries| && j != i ==> r[j] == entries[j])
      && (i != -1 ==> r[i] == ToolCallEntry(name, false, error != ""))
      && (i == -1 ==> r == entries)
  {
  }

  /** The list stays within its cap whatever the messages. */
  lemma {:induction false} CapHolds(s: SidebarState, msgs: seq<Msg>, maxTools: nat)
    requires maxTools > 0 && |s.toolCalls| <= maxTools
    ensures |SidebarRun(s, msgs, maxTools).toolCalls| <= maxTools
    decreases |msgs|
  {
    if msgs != [] {
      var pre := SidebarRun(s, msgs[..|msgs| - 1], maxTools);
      CapHolds(s, msgs[..|msgs| - 1], maxTools);
      match msgs[|msgs| - 1]
      case Event(ToolStartMsg(_, name, _)) => StartGoesFirst(pre.toolCalls, name, maxTools);
      case Event(ToolResultMsg(_, name, _, error)) => ResultFinishesOne(pre.toolCalls, name, error);
      case _ =>
    }
  }

  /** Finished entries stay: a result never shortens the list, and a finished entry is never running again. */
  lemma FinishedStays(entries: seq<ToolCallEntry>, name: string, error: string, j: int)
    requires 0 <= j < |entries| && !entries[j].running
    ensures |Finished(entries, name, error)| == |entries|
    ensures Finished(entries, name, error)[j] == entries[j]
  {
  }
}
