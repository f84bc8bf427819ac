/**
 * The message and schema vocabulary of the model backend (the `api` package of
 * the ollama client), reduced to the fields the agent core reads or writes.
 * JSON numbers are modelled as integers; field names `type` and `function`,
 * which are Dafny keywords, are spelled `typ` and `fn`.
 */
module Api {

  /** An untyped JSON value as it arrives in tool arguments and remote schemas. */
  datatype Value = Str(s: string) | Num(n: int) | Bool(b: bool) | Null

  /** The function part of a tool-call request: target tool name and arguments. */
  datatype ToolCallFunction = ToolCallFunction(name: string, arguments: map<string, Value>)

  datatype ToolCall = ToolCall(fn: ToolCallFunction)

  /** One turn of the conversation. */
  datatype Message = Message(role: string, content: string, toolCalls: seq<ToolCall>)

  /** The zero value of `api.Message`. */
  const EmptyMessage := Message("", "", [])

  datatype ToolProperty = ToolProperty(typ: string, description: string, enum: seq<string>)

  datatype ToolParameters = ToolParameters(typ: string, required: seq<string>, properties: map<string, ToolProperty>)

  datatype ToolFunction = ToolFunction(name: string, description: string, parameters: ToolParameters)

  /** A tool descriptor as the model backend receives it. */
  datatype Tool = Tool(typ: string, fn: ToolFunction)

  datatype ChatRequest = ChatRequest(model: string, messages: seq<Message>, tools: seq<Tool>, think: bool, stream: bool)

  /** One response the backend hands to the chat callback. */
  datatype ChatResponse = ChatResponse(message: Message)
}
