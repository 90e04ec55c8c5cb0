/** The parts of a transcript entry the models share. */
module Transcripts {
  datatype Role = Opaque | User | Assistant | System | ToolRole

  datatype Kind = TextBlock | ReasoningBlock | ToolUse | ToolResult | Image | File

  /** input stands for the stored arguments, failed for the status error, data for inline bytes. */
  datatype Block = Block(
    kind: Kind, text: string, toolId: string, name: string, input: string, failed: bool, data: string)

  datatype Message = Message(role: Role, content: seq<Block>)
}
