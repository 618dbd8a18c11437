/**
 * The tool interface of internal/tool/types.go. A tool is described by the values its
 * methods return; what `Execute` and `Preview` do is supplied where a tool is run.
 */
module ToolTypes {

  /** Whether a tool runs without asking, or asks the user first. */
  datatype PermissionLevel = PermissionAuto | PermissionPrompt

  /**
   * A registered tool: its name, description, JSON schema text, permission level, and
   * whether it also implements the optional Previewer interface.
   */
  datatype Tool = Tool(
    name: string,
    description: string,
    schema: string,
    permission: PermissionLevel,
    hasPreview: bool)
}
