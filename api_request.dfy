/** The request body sent to the chat-completions endpoint, with the default
    values of its fields. */
module RequestDto {
  import opened Wrappers

  /** One outbound message `{role, content}`. */
  datatype Message = Message(role: string, content: string)

  /** `thinking: {type}`; the provider's reasoning switch. */
  datatype Thinking = Thinking(thinkingType: string := "disabled")

  /** `response_format: {type}`. */
  datatype ResponseFormat = ResponseFormat(formatType: string := "json_object")

  /** The request envelope. `messages` has no default; `temperature` is a
      Kotlin `Double`, kept here as a real number. */
  datatype ApiRequest = ApiRequest(
    model: string := "glm-4.5-flash",
    nameonly messages: seq<Message>,
    thinking: Thinking := Thinking(),
    responseFormat: Option<ResponseFormat> := None,
    maxTokens: int := 4096,
    temperature: real := 0.0)

  /** A request built from its messages alone takes every default: model
      "glm-4.5-flash", thinking disabled, no response format (although
      `ResponseFormat()` itself means "json_object"), 4096 tokens, temperature 0. */
  lemma RequestDefaults(messages: seq<Message>)
    ensures var r := ApiRequest(messages := messages);
      && r.messages == messages
      && r.model == "glm-4.5-flash"
      && r.thinking.thinkingType == "disabled"
      && r.responseFormat == None
      && ResponseFormat().formatType == "json_object"
      && r.maxTokens == 4096
      && r.temperature == 0.0
  {
  }
}
