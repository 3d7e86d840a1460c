/** The repository turns the client's envelope into a transcript turn: it
    takes the first choice's content and decodes it in three tiers -- strict,
    then lenient with flattening, then the raw text marked as a parsing error. */
module ChatRepository {
  import opened Wrappers
  import opened ConsultantDto
  import opened Domain
  import opened ResponseDto
  import RequestDto
  import ApiClient

  /** The text used when the envelope has no choices. */
  const NoReply: string := "Нет ответа"

  /** The two content decoders, `decodeFromString<ConsultantResponse>` and
      `decodeFromString<ConsultantResponseRaw>` (lenient JSON, unknown keys
      ignored), as abstract partial functions: `None` where they throw. */
  datatype Decoders = Decoders(
    strict: string -> Option<ConsultantResponse>,
    lenient: string -> Option<ConsultantResponseRaw>)

  /** `response.choices.firstOrNull()?.message?.content ?: "Нет ответа"`. */
  function FirstContent(response: ApiResponse): (content: string)
    ensures response.choices == [] ==> content == NoReply
    ensures response.choices != [] ==> content == response.choices[0].message.content
  {
    if response.choices == [] then NoReply else response.choices[0].message.content
  }

  /** The reply decoded from `content` (the nested try blocks of `ChatRepositoryImpl.sendMessage`). */
  function DecodeReply(content: string, decoders: Decoders): (m: ChatMessage)
    ensures !m.isUser && m.rawJson == Some(content)
    ensures m.isParsingError <==> decoders.strict(content).None? && decoders.lenient(content).None?
  {
    var consultant :=
      match decoders.strict(content)
      case Some(strict) => strict
      case None =>
        match decoders.lenient(content)
        case Some(raw) => ToConsultantResponse(raw)
        case None => ConsultantResponse(message := content, options := None);
    ChatMessage(
      text := consultant.message,
      isUser := false,
      rawJson := Some(content),
      options := consultant.options,
      isParsingError := decoders.strict(content).None? && decoders.lenient(content).None?)
  }

  /** What each tier produces: the strict reply as is; the lenient reply with
      its lists flattened; and, when both fail, the content verbatim with no
      options and the parsing-error mark. */
  lemma DecodeTiers(content: string, decoders: Decoders)
    ensures var m := DecodeReply(content, decoders);
      && (decoders.strict(content).Some? ==>
            && m.text == decoders.strict(content).value.message
            && m.options == decoders.strict(content).value.options
            && !m.isParsingError)
      && (decoders.strict(content).None? && decoders.lenient(content).Some? ==>
            && m.text == decoders.lenient(content).value.message
            && m.options == ToConsultantResponse(decoders.lenient(content).value).options
            && !m.isParsingError)
      && (decoders.strict(content).None? && decoders.lenient(content).None? ==>
            && m.text == content
            && m.options == None
            && m.isParsingError)
  {
  }

  /** The lenient decoder is consulted only when the strict one fails: with a
      successful strict decode, any lenient decoder gives the same turn. */
  lemma LenientOnlyAfterStrict(content: string, strict: string -> Option<ConsultantResponse>,
                               lenient1: string -> Option<ConsultantResponseRaw>,
                               lenient2: string -> Option<ConsultantResponseRaw>)
    requires strict(content).Some?
    ensures DecodeReply(content, Decoders(strict, lenient1)) == DecodeReply(content, Decoders(strict, lenient2))
  {
  }

  /** The echo invariant: a decoded turn, put back into the history, is sent
      to the provider as the content it was decoded from, byte for byte. */
  lemma EchoInvariant(content: string, decoders: Decoders)
    ensures ApiClient.ToApiMessage(DecodeReply(content, decoders)) == RequestDto.Message("assistant", content)
  {
  }

  /** The same, in place: a decoded turn at index `i >= 1` of the history is
      the outbound message at index `i`, with its original content. */
  lemma EchoInHistory(history: seq<ChatMessage>, i: nat, content: string, decoders: Decoders, systemPrompt: string)
    requires 1 <= i < |history| && history[i] == DecodeReply(content, decoders)
    ensures ApiClient.OutboundMessages(history, systemPrompt)[i] == RequestDto.Message("assistant", content)
  {
    ApiClient.OutboundShape(history, systemPrompt);
    EchoInvariant(content, decoders);
  }

  /** `ChatRepositoryImpl.sendMessage`: a failed call is the result as is and
      nothing is decoded; once the call returns, decoding never fails. */
  method SendMessage(client: ApiClient.Client, decoders: Decoders, messageHistory: seq<ChatMessage>, apiKey: string)
    returns (r: Result<ChatMessage>)
    ensures var exchange := ApiClient.Exchange(client,
              ApiClient.RequestFor(ApiClient.OutboundMessages(messageHistory, client.systemPrompt)), apiKey);
      && (exchange.Failure? ==> r == Failure(exchange.error))
      && (exchange.Success? ==> r == Success(DecodeReply(FirstContent(exchange.value), decoders)))
  {
    var response := ApiClient.SendMessage(client, messageHistory, apiKey);
    if response.Failure? {
      return Failure(response.error);
    }
    var content := FirstContent(response.value);
    var isParsingError := false;
    var consultantResponse: ConsultantResponse;
    match decoders.strict(content) {
      case Some(strict) =>
        consultantResponse := strict;
      case None =>
        match decoders.lenient(content) {
          case Some(rawResponse) =>
            consultantResponse := ToConsultantResponse(rawResponse);
          case None =>
            isParsingError := true;
            consultantResponse := ConsultantResponse(message := content, options := None);
        }
    }
    var chatMessage := ChatMessage(
      text := consultantResponse.message,
      isUser := false,
      rawJson := Some(content),
      options := consultantResponse.options,
      isParsingError := isParsingError);
    return Success(chatMessage);
  }
}
