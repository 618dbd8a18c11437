/**
 * The messages of the terminal front end: the agent events of internal/tui/events.go, the
 * Bubble Tea messages the models react to, and the commands they hand back to the runtime.
 *
 * A permission request's reply channel is named by a number; what the front end sends on
 * it is recorded by the model that sends it. Widget commands (cursor blink, spinner ticks,
 * viewport scrolling) are kept only as names.
 */
module TuiEvents {
  import opened Wrappers

  datatype AgentEvent =
    | TokenMsg(content: string)
    | ToolStartMsg(id: string, name: string, args: string)
    | ToolResultMsg(id: string, name: string, result: string, error: string)
    | PermissionRequestMsg(id: string, toolName: string, preview: string, response: nat)
    | PermissionResponseMsg(allowed: bool)
    | AgentDoneMsg(err: Option<string>)
    | SubAgentSpawnMsg(task: string)
    | SubAgentDoneMsg

  /** A message delivered to Update. `KeyPress` carries the key's name as Bubble Tea spells it. */
  datatype Msg =
    | WindowSize(width: int, height: int)
    | KeyPress(key: string)
    | SendMsg(text: string)
    | Event(event: AgentEvent)
    | SpinnerTick
    | OtherMsg

  /** A command returned to the runtime. */
  datatype Command =
    | WaitForEvent
    | RunAgent(userMessage: string)
    | Quit
    | EmitSend(text: string)
    | Blink
    | Tick
    | WidgetCmd

  /** The key bindings of internal/tui/keymap.go that the models consult. */
  const SendKey: string := "enter"
  const NewLineKey: string := "ctrl+j"
  const FocusChatKey: string := "esc"
  const QuitKey: string := "ctrl+c"
  const PermAllowKey: string := "y"
  const PermDenyKey: string := "n"
  const TabKey: string := "tab"
}
