/** The value types the core takes from the external `ai` library: a tool
    set is a record from tool name to tool, and a UI message is an id, a
    role and a list of parts. The core never looks inside a tool. */
module AiSdk {

  /** A tool handle, known only by the name of the provider that
      supplied it and the description it carries. */
  datatype Tool = Tool(provider: string, description: string)

  type ToolSet = map<string, Tool>

  datatype UiPart = TextPart(text: string) | OtherPart(kind: string)

  datatype UiMessage = UiMessage(id: string, role: string, parts: seq<UiPart>)
}
