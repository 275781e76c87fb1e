/** The chat messages that LangChain passes between the model, the graph
    nodes and the tools, reduced to the fields the scripts read. */
module Messages {
  import opened Results

  /** One entry of an AI message's `tool_calls`: the tool's name, its "args"
      (kept as an uninterpreted string), the call id, and the value under an
      "input" key when the entry has one. LangChain's tool-call entries carry
      "name", "args" and "id"; the "input" key is read by one of the scripts
      and may be absent. */
  datatype ToolCall = ToolCall(name: string, args: string, id: string, input: Option<string>)

  datatype Message =
    | SystemMessage(content: string)
    | HumanMessage(content: string)
    | AIMessage(content: string, toolCalls: seq<ToolCall>)
    | ToolMessage(content: string, toolCallId: string, name: Option<string>)

  /** `hasattr(m, "tool_calls") and m.tool_calls`, as the list it tests:
      only AI messages carry tool calls. */
  function RequestedCalls(m: Message): (r: seq<ToolCall>)
    ensures m.AIMessage? ==> r == m.toolCalls
    ensures !m.AIMessage? ==> r == []
  {
    if m.AIMessage? then m.toolCalls else []
  }
}
