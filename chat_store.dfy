/** The store's public vocabulary: intents, state with its defaults, labels,
    and the locally synthesised greeting that opens every transcript. */
module ChatStore {
  import opened Wrappers
  import opened ConsultantDto
  import opened Domain

  /** What the UI asks of the store. The four declared intents, plus
      `GetCountryInfo`, which the executor and the screen use but the
      declaration omits. */
  datatype Intent =
    | SendMessage(message: string)
    | UpdateInputText(text: string)
    | RetryLastMessage
    | RestartConversation
    | GetCountryInfo(countryName: string)

  /** The store's state; `messages` defaults to `createInitialMessages()`,
      which `InitialState` supplies. */
  datatype State = State(
    inputText: string := "",
    nameonly messages: seq<ChatMessage>,
    isLoading: bool := false,
    error: Option<string> := None)

  /** One-shot notifications to the UI. */
  datatype Label = Error(message: string)

  const FallbackGreeting: string := "Здравствуйте! Помогу вам найти идеальный смартфон."

  /** `createInitialMessages()`: the greeting text (`SystemPrompts.INITIAL_GREETING`,
      a parameter here) decoded strictly; on failure a fixed greeting. Either
      way one assistant turn. */
  function CreateInitialMessages(greeting: string, strict: string -> Option<ConsultantResponse>): (r: seq<ChatMessage>)
    ensures |r| == 1 && !r[0].isUser && !r[0].isParsingError
    ensures strict(greeting).Some? ==>
              && r[0].text == strict(greeting).value.message
              && r[0].rawJson == Some(greeting)
              && r[0].options == strict(greeting).value.options
    ensures strict(greeting).None? ==>
              r[0].text == FallbackGreeting && r[0].rawJson == None && r[0].options == None
  {
    match strict(greeting)
    case Some(consultantResponse) =>
      [ChatMessage(
        text := consultantResponse.message,
        isUser := false,
        rawJson := Some(greeting),
        options := consultantResponse.options)]
    case None =>
      [ChatMessage(text := FallbackGreeting, isUser := false)]
  }

  /** `State()`: idle (empty input, not loading, no error) with a transcript
      of one assistant greeting. */
  function InitialState(greeting: string, strict: string -> Option<ConsultantResponse>): (r: State)
    ensures r.inputText == "" && !r.isLoading && r.error == None
    ensures |r.messages| == 1 && !r.messages[0].isUser
  {
    State(messages := CreateInitialMessages(greeting, strict))
  }
}
