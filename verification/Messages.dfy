/** The conversation vocabulary shared by the stream accumulator, the gate
    chain and the agent loop. */
module Messages {
  import opened Wrappers
  import opened Text

  datatype Role = System | User | Assistant | ToolRole

  /** One tool call of the model; `arguments` is its JSON text. */
  datatype ToolCall = ToolCall(id: string, name: string, arguments: string)

  /** One message; `toolCalls` is empty where the source has no list. */
  datatype Message = Message(role: Role, content: string, toolCalls: seq<ToolCall>,
                             toolCallId: Option<string>, reasoning: Option<string>)

  datatype ToolResult = ToolResult(callId: string, name: string, success: bool,
                                   output: string, summary: string)

  /** One assembled assistant turn. */
  datatype Turn = Turn(content: string, toolCalls: seq<ToolCall>,
                       finishReason: Option<string>, reasoning: Option<string>)
  {
    predicate IsEmpty() {
      Trim(content) == "" && toolCalls == []
    }
  }

  function SystemMessage(text: string): Message {
    Message(System, text, [], None, None)
  }

  function UserMessage(text: string): Message {
    Message(User, text, [], None, None)
  }

  function AssistantMessage(text: string): Message {
    Message(Assistant, text, [], None, None)
  }

  function ToolMessage(callId: string, output: string): Message {
    Message(ToolRole, output, [], Some(callId), None)
  }

  function CallIds(calls: seq<ToolCall>): (ids: seq<string>)
    ensures |ids| == |calls|
  {
    seq(|calls|, i requires 0 <= i < |calls| => calls[i].id)
  }
}
