/** The client of the chat-completions endpoint: it assembles the outbound
    message list from the transcript, sends the request and rejects an
    envelope that carries an `error`. The HTTP call and the envelope decoder
    are parameters (`Client`); logging is not modelled. */
module ApiClient {
  import opened Wrappers
  import opened Domain
  import opened RequestDto
  import opened ResponseDto

  const ApiUrl := "https://api.z.ai/api/paas/v4/chat/completions"

  /** What the client works with: the system prompt
      (`SystemPrompts.SALES_CONSULTANT`), the HTTP POST (url, Authorization
      header, body) giving the raw response text or the exception it threw,
      and the envelope decoder `decodeFromString<ApiResponse>`. */
  datatype Client = Client(
    systemPrompt: string,
    post: (string, string, ApiRequest) -> Result<string>,
    decodeEnvelope: string -> Result<ApiResponse>)

  /** The provider message for one transcript turn: a user turn sends its
      text, an assistant turn its raw content when it has one, else its text. */
  function ToApiMessage(m: ChatMessage): (r: Message)
    ensures r.role == "user" <==> m.isUser
    ensures r.role == "user" || r.role == "assistant"
  {
    Message(
      role := if m.isUser then "user" else "assistant",
      content := if m.isUser then m.text else match m.rawJson case Some(raw) => raw case None => m.text)
  }

  /** The outbound list: the system prompt, then every turn after the first. */
  function OutboundMessages(history: seq<ChatMessage>, systemPrompt: string): (r: seq<Message>)
    ensures |r| == if history == [] then 1 else |history|
    ensures r[0] == Message("system", systemPrompt)
    ensures forall k :: 1 <= k < |r| ==> r[k].role != "system"
  {
    [Message("system", systemPrompt)]
      + seq(if history == [] then 0 else |history| - 1,
            i requires 0 <= i < |history| - 1 => ToApiMessage(history[i + 1]))
  }

  /** The message-list construction in `ApiClient.sendMessage`: a mutable list seeded with the system
      message, grown by a `forEachIndexed` that returns early at index 0. */
  method BuildMessages(history: seq<ChatMessage>, systemPrompt: string) returns (messages: seq<Message>)
    ensures messages == OutboundMessages(history, systemPrompt)
  {
    messages := [Message(role := "system", content := systemPrompt)];
    var index := 0;
    while index < |history|
      invariant 0 <= index <= |history|
      invariant |messages| == if index == 0 then 1 else index
      invariant messages[0] == Message("system", systemPrompt)
      invariant forall k :: 1 <= k < |messages| ==> messages[k] == ToApiMessage(history[k])
    {
      var chatMessage := history[index];
      if index != 0 {
        messages := messages + [Message(
          role := if chatMessage.isUser then "user" else "assistant",
          content := if chatMessage.isUser then chatMessage.text
                     else match chatMessage.rawJson case Some(raw) => raw case None => chatMessage.text)];
      }
      index := index + 1;
    }
  }

  /** The shape of the outbound list: one system message first, the greeting
      at index 0 skipped, and output index `i` carrying history index `i`. */
  lemma OutboundShape(history: seq<ChatMessage>, systemPrompt: string)
    ensures var out := OutboundMessages(history, systemPrompt);
      && |out| == 1 + (if history == [] then 0 else |history| - 1)
      && out[0] == Message("system", systemPrompt)
      && forall i :: 1 <= i < |history| ==> out[i] == ToApiMessage(history[i])
  {
  }

  /** Whatever the first turn is, the request does not depend on it: the
      local greeting is never sent. */
  lemma GreetingNeverSent(history: seq<ChatMessage>, other: ChatMessage, systemPrompt: string)
    requires history != []
    ensures OutboundMessages([other] + history[1..], systemPrompt) == OutboundMessages(history, systemPrompt)
  {
    var h' := [other] + history[1..];
    assert forall i :: 1 <= i < |history| ==> h'[i] == history[i];
  }

  /** Role is "user" exactly for user turns and "assistant" otherwise; the
      content is the text for a user turn and `rawJson ?: text` otherwise. */
  lemma RoleAndContent(m: ChatMessage)
    ensures ToApiMessage(m).role == "user" <==> m.isUser
    ensures ToApiMessage(m).role == "assistant" <==> !m.isUser
    ensures m.isUser ==> ToApiMessage(m).content == m.text
    ensures !m.isUser && m.rawJson.Some? ==> ToApiMessage(m).content == m.rawJson.value
    ensures !m.isUser && m.rawJson.None? ==> ToApiMessage(m).content == m.text
  {
  }

  /** The `ChatRequest` built in `ApiClient.sendMessage`: the request forces "json_object" and keeps every other default. */
  function RequestFor(messages: seq<Message>): (r: ApiRequest)
    ensures r.responseFormat == Some(ResponseFormat("json_object"))
    ensures r == ApiRequest(messages := messages).(responseFormat := r.responseFormat)
  {
    ApiRequest(messages := messages, responseFormat := Some(ResponseFormat(formatType := "json_object")))
  }

  /** The `response.error` check in `ApiClient.sendMessage`: an envelope with an `error` becomes an exception. */
  function CheckEnvelope(response: ApiResponse): (r: Result<ApiResponse>)
    ensures r.Success? <==> response.error.None?
    ensures r.Success? ==> r.value == response
    ensures r.Failure? ==> r.error.message == Some("API Error: " + response.error.value.message)
  {
    match response.error
    case Some(err) => Failure(Throwable(Some("API Error: " + err.message)))
    case None => Success(response)
  }

  /** One round trip: POST, decode the envelope, check it for an error. A
      failure of any step is the result; a success never carries an error. */
  function Exchange(client: Client, request: ApiRequest, apiKey: string): (r: Result<ApiResponse>)
    ensures r.Success? ==> r.value.error.None?
  {
    match client.post(ApiUrl, "Bearer " + apiKey, request)
    case Failure(e) => Failure(e)
    case Success(body) =>
      match client.decodeEnvelope(body)
      case Failure(e) => Failure(e)
      case Success(response) => CheckEnvelope(response)
  }

  /** `ApiClient.sendMessage`. */
  method SendMessage(client: Client, messageHistory: seq<ChatMessage>, apiKey: string) returns (r: Result<ApiResponse>)
    ensures r == Exchange(client, RequestFor(OutboundMessages(messageHistory, client.systemPrompt)), apiKey)
  {
    var messages := BuildMessages(messageHistory, client.systemPrompt);
    var request := ApiRequest(messages := messages, responseFormat := Some(ResponseFormat(formatType := "json_object")));
    var rawResponse := client.post(ApiUrl, "Bearer " + apiKey, request);
    if rawResponse.Failure? {
      return Failure(rawResponse.error);
    }
    var parsed := client.decodeEnvelope(rawResponse.value);
    if parsed.Failure? {
      return Failure(parsed.error);
    }
    var apiResponse := parsed.value;
    if apiResponse.error.Some? {
      return Failure(Throwable(Some("API Error: " + apiResponse.error.value.message)));
    }
    return Success(apiResponse);
  }

  /** A provider error in a well-formed envelope fails the call with the
      provider's message behind "API Error: ". */
  lemma EnvelopeErrorFails(client: Client, request: ApiRequest, apiKey: string, body: string, response: ApiResponse)
    requires client.post(ApiUrl, "Bearer " + apiKey, request) == Success(body)
    requires client.decodeEnvelope(body) == Success(response)
    requires response.error.Some?
    ensures Exchange(client, request, apiKey) == Failure(Throwable(Some("API Error: " + response.error.value.message)))
  {
  }
}
