/** Provider-independent primitive types. */
module Types {
  import opened Wrappers

  /** What tasks and tools return. */
  datatype Value = Null | Data(text: string)

  datatype Role = System | User | Assistant | Tool

  datatype ToolCall = ToolCall(id: string, name: string, arguments: string)

  datatype Message = Message(role: Role, content: Option<string>, toolCalls: seq<ToolCall>,
                             toolCallId: Option<string>, name: Option<string>)
}
