/**
 * Prompt material, kept symbolic: template rendering is not interpreted, so a rendered
 * text is recorded as the template together with the variable bindings it was given.
 */
module Prompts {

  /** The fixed templates of the conversational agent, whose wording is not part of this model. */
  datatype TemplateName = Prefix | Suffix | ToolResponse

  /** An output parser: the conversational agent's own, or one supplied by the caller. */
  datatype OutputParser = ConversationalParser | CallerParser(id: nat)

  /** Text of a message or of a message template. */
  datatype Text =
    | Lit(s: string)
    | Template(name: TemplateName)
    | FormatInstructions(parser: OutputParser)
    | Rendered(template: Text, bindings: seq<Binding>)

  /** One variable of an f-string rendering. */
  datatype Binding = Binding(key: string, value: Text)

  /** A chat message handed to the model. */
  datatype ChatMessage = AIChatMessage(content: Text) | HumanChatMessage(content: Text)

  /** One slot of a chat prompt: a message template or a named list of messages filled in later. */
  datatype PromptSlot =
    | SystemTemplate(template: Text)
    | HumanTemplate(template: Text)
    | MessagesPlaceholder(variableName: string)

  /** A chat prompt template: its slots in order. */
  datatype ChatPrompt = ChatPrompt(messages: seq<PromptSlot>)
}
