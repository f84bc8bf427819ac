/** The error kinds the agent core can surface to its driver. */
module Errors {
  import opened Wrappers
  import opened Api

  datatype Error =
    /** `AddTool` met a name that is already registered. */
    | DuplicateTool(name: string)
    /** `fromMCPTool` met an enum entry that is not a string. */
    | EnumNotString(value: Value)
    /** A tool call names a tool that is not registered. */
    | NoSuchTool(name: string)
    /** A tool's required argument is absent. */
    | ArgumentMissing(param: string)
    /** A tool's argument has the wrong type; `got` is the offending value when the message reports it. */
    | ArgumentNotString(param: string, got: Option<Value>)
    /** The operator submitted an empty prompt. */
    | EmptyPrompt
    /** A failure reported by an external collaborator (model backend, tool provider, search service). */
    | External(message: string)
}
