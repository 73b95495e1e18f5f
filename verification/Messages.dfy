/** The provider-agnostic transcript that both normalizers translate. */
module Messages {
  import opened Options
  import opened Json

  datatype ContentBlock =
    | Text(text: string)
    | ToolUse(id: string, name: string, input: Json)
    | ToolResult(toolUseId: string, output: string, isError: bool)
    | Thinking(thinking: Option<string>, signature: Option<string>)
    | RedactedThinking(blob: string)
    | Image(mediaType: string, data: string)
    | Document(mediaType: string, data: string, title: Option<string>)

  datatype Message =
    | System(prompt: string)
    | User(content: seq<ContentBlock>)
    | Assistant(content: seq<ContentBlock>)
    | ToolResultMessage(toolUseId: string, content: seq<ContentBlock>, isError: bool)
}
