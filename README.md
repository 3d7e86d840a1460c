# Chat request/response core, modelled in Dafny

This project models the request/response layer of an Android chat client for
an LLM chat-completions endpoint (the "sales consultant" variant with option
cards, plus the country-lookup path). The model covers four pieces:

- **Lenient flattening** (`ConsultantDto`). A kotlinx `JsonElement` tree becomes
  a list of strings, depth first. Blank primitives are dropped and objects are
  ignored. The lenient reply DTO is converted to the strict one.
- **Three-tier reply decoding** (`ChatRepository`). The first choice's content
  is decoded strictly, then leniently with flattening. If both fail, the raw
  text is kept and marked as a parsing error. `rawJson` is always the content.
- **Outbound history assembly** (`ApiClient`). A system message comes first.
  The local greeting at index 0 is skipped. Each turn is mapped to a role, and
  an assistant turn sends `rawJson ?: text`. A request forces `json_object`,
  and an envelope that carries an `error` is turned into a failure.
- **The chat store** (`ChatStore`, `ChatStoreFactory`). The reducer is a total
  function of state and message. The executor is a class whose state is
  always the replay of its event log: the messages it dispatched, the labels it
  published and the use cases it called, in order.

Supporting modules: `Wrappers` (Kotlin `T?`, `Result<T>`, a `Throwable`'s
message), `Json` (the JSON tree, `JsonPrimitive.content`, `isBlank`), `Domain`
(`ChatMessage`), `RequestDto` and `ResponseDto` (the DTOs with their Kotlin
default values, written as Dafny default parameters).

Readings chosen where the sources disagree with each other:

- `ChatMessage` has `text`, `isUser`, `rawJson`, `options` and `isParsingError`,
  as its callers use it. The declaration in `domain/model/ChatMessage.kt`
  lists `timestamp` in their place; `timestamp` is dropped.
- `Intent` has the four declared variants plus `GetCountryInfo`. The executor
  and the screen use `GetCountryInfo`, but `ChatStore.kt` does not declare it.
  `RetryLastMessage` and `RestartConversation` have no branch in the executor,
  so they produce no events.
- The send use case is modelled as the store calls it
  (`ChatStoreFactory.kt:56-58`). It takes the message text and the API key and
  returns `Result<String>`, which matches the `ChatRepository` interface rather
  than `SendMessageUseCase.kt`.
- Output message `i` of the outbound list, for `i >= 1`, is history turn `i`:
  the system message takes the slot that the skipped greeting frees.

Behaviour of the code a reader might not expect:

- **HTTP status.** The response body is decoded whatever the HTTP status, so a
  non-2xx reply is not a transport error by itself.
- **Non-string primitives.** Flattening keeps numbers, booleans and a `null`
  nested inside an array as their text (`"42"`, `"true"`, `"null"`). It does
  not discard them. An absent field (a Kotlin `null` receiver) still gives
  the empty list.
- **Retry and restart.** Neither intent re-sends or resets anything in the
  executor as written.

## Model

| member | source | states |
|---|---|---|
| `Wrappers.MessageText` | app/src/main/java/com/farionik/aiadvent/presentation/mvi/ChatStoreFactory.kt:61 | a `${error.message}` template prints the message itself, or "null" when the message is null |
| `Json.Content` | app/src/main/java/com/farionik/aiadvent/data/dto/ConsultantResponse.kt:56-58 | a string primitive gives its text verbatim; `JsonNull` gives "null" and a boolean gives "true"/"false", neither of them blank; a number gives its literal text |
| `Json.IsWhitespace` | app/src/main/java/com/farionik/aiadvent/data/dto/ConsultantResponse.kt:58 | space, tab, line feed and carriage return are whitespace; ASCII letters and digits are not |
| `Json.IsBlank` | app/src/main/java/com/farionik/aiadvent/data/dto/ConsultantResponse.kt:58 | the empty string is blank; a string whose first character is not whitespace is not |
| `ConsultantDto.Flatten` | app/src/main/java/com/farionik/aiadvent/data/dto/ConsultantResponse.kt:54-66 | no produced string is blank, and there are at most as many strings as primitive leaves reachable through arrays |
| `ConsultantDto.ExtractStrings` | app/src/main/java/com/farionik/aiadvent/data/dto/ConsultantResponse.kt:54-66 | the loop-and-recurse extraction appends exactly the flattening of the element to the list it is given |
| `ConsultantDto.ToStringList` | app/src/main/java/com/farionik/aiadvent/data/dto/ConsultantResponse.kt:49-70 | a null receiver gives the empty list; otherwise the result is the element's flattening |
| `ConsultantDto.FlattenAllAppend` | app/src/main/java/com/farionik/aiadvent/data/dto/ConsultantResponse.kt:60-63 | array elements are visited in order: flattening a concatenation is the concatenation of the flattenings |
| `ConsultantDto.NestedArraysFlattenInOrder` | app/src/main/java/com/farionik/aiadvent/data/dto/ConsultantResponse.kt:60-63 | `[["a"],["b","c"]]` flattens to `["a","b","c"]` |
| `ConsultantDto.PrimitivesKeptAsText` | app/src/main/java/com/farionik/aiadvent/data/dto/ConsultantResponse.kt:49-58 | examples: a number (`Num("42")`), both booleans and `JsonNull` are kept as their text, the blank strings `""` and `" \t\n"` are dropped, and a null receiver gives `[]`; the general statement is `ConsultantDto.FlattenMembership` |
| `ConsultantDto.FlattenMembership` | app/src/main/java/com/farionik/aiadvent/data/dto/ConsultantResponse.kt:52-69 | a string is in the output if and only if it is the non-blank text of some primitive leaf that is not inside an object |
| `ConsultantDto.ObjectsContributeNothing` | app/src/main/java/com/farionik/aiadvent/data/dto/ConsultantResponse.kt:64 | removing every object, at any depth, leaves an object-free tree with the same flattening |
| `ConsultantDto.ToConsultantResponse` | app/src/main/java/com/farionik/aiadvent/data/dto/ConsultantResponse.kt:73-84 | keeps `message`; `options` is null iff the raw options are; keeps the option count, order and titles; pros and cons are the flattened trees |
| `ConsultantDto.FlattenFlatStrings` | app/src/main/java/com/farionik/aiadvent/data/dto/ConsultantResponse.kt:56-63 | a flat array of non-blank strings flattens to exactly those strings |
| `ConsultantDto.LenientAgreesWithStrict` | app/src/main/java/com/farionik/aiadvent/data/dto/ConsultantResponse.kt:73-84 | take a strict reply with no blank list entries and read it through the lenient shape: conversion gives back the same reply |
| `RequestDto.RequestDefaults` | app/src/main/java/com/farionik/aiadvent/data/dto/ApiRequest.kt:12-31 | model "glm-4.5-flash", thinking "disabled", response format absent (though `ResponseFormat()` is "json_object"), 4096 max tokens, temperature 0.0; messages must be supplied |
| `ResponseDto.ParseCountryInfo` | app/src/main/java/com/farionik/aiadvent/data/dto/ApiResponse.kt:63-76 | null exactly when there are no choices or the decoder fails; otherwise the decoded record with `rawJson` set to the first choice's content |
| `ResponseDto.EmptyEnvelope` | app/src/main/java/com/farionik/aiadvent/data/dto/ApiResponse.kt:7-51 | an empty envelope has no choices, zero usage and no error, and yields no country record; a missing message content is "" |
| `ResponseDto.CountryInfoKeepsContent` | app/src/main/java/com/farionik/aiadvent/data/dto/ApiResponse.kt:65-72 | a decoded record is the decoder's record for the first choice's content with only `rawJson` replaced, by that content exactly; in particular the name and the facts are the decoder's |
| `ApiClient.BuildMessages` | app/src/main/java/com/farionik/aiadvent/data/network/ApiClient.kt:51-77 | the mutable-list loop builds exactly the outbound list: system message, then every turn after the first, mapped |
| `ApiClient.ToApiMessage` | app/src/main/java/com/farionik/aiadvent/data/network/ApiClient.kt:66-76 | the role is "user" exactly for a user turn, and is always "user" or "assistant" |
| `ApiClient.OutboundMessages` | app/src/main/java/com/farionik/aiadvent/data/network/ApiClient.kt:51-77 | one message per history turn (one for an empty history); the first is the system prompt and no later message has the system role |
| `ApiClient.OutboundShape` | app/src/main/java/com/farionik/aiadvent/data/network/ApiClient.kt:53-77 | length is 1 + max(0, \|history\| - 1); message 0 is the system prompt; message i is history turn i for i >= 1 |
| `ApiClient.GreetingNeverSent` | app/src/main/java/com/farionik/aiadvent/data/network/ApiClient.kt:62-64 | replacing the first turn by any other leaves the outbound list unchanged |
| `ApiClient.RoleAndContent` | app/src/main/java/com/farionik/aiadvent/data/network/ApiClient.kt:66-76 | role is "user" iff the turn is a user turn, otherwise "assistant"; a user turn sends its text, an assistant turn `rawJson` if present, else its text |
| `ApiClient.RequestFor` | app/src/main/java/com/farionik/aiadvent/data/network/ApiClient.kt:79-82 | the request forces response format "json_object" and otherwise equals the all-defaults request |
| `ApiClient.CheckEnvelope` | app/src/main/java/com/farionik/aiadvent/data/network/ApiClient.kt:102-107 | an envelope passes iff it has no error; otherwise the failure message is "API Error: " followed by the provider's message |
| `ApiClient.Exchange` | app/src/main/java/com/farionik/aiadvent/data/network/ApiClient.kt:84-111 | a successful round trip never returns an envelope carrying an error |
| `ApiClient.SendMessage` | app/src/main/java/com/farionik/aiadvent/data/network/ApiClient.kt:49-112 | sends the request built from the history and returns the round trip's outcome: transport, decode and envelope failures all propagate |
| `ApiClient.EnvelopeErrorFails` | app/src/main/java/com/farionik/aiadvent/data/network/ApiClient.kt:99-107 | a well-formed envelope with an error fails with "API Error: " + the error's message |
| `ChatRepository.FirstContent` | app/src/main/java/com/farionik/aiadvent/data/repository/ChatRepositoryImpl.kt:24 | the first choice's content, or "Нет ответа" when there are no choices |
| `ChatRepository.DecodeReply` | app/src/main/java/com/farionik/aiadvent/data/repository/ChatRepositoryImpl.kt:26-57 | every outcome is a non-user turn whose `rawJson` is the content; `isParsingError` holds iff both decoders fail |
| `ChatRepository.DecodeTiers` | app/src/main/java/com/farionik/aiadvent/data/repository/ChatRepositoryImpl.kt:28-49 | strict success gives the strict reply; otherwise lenient success gives the converted reply; otherwise the text is the content verbatim, with no options and the error mark |
| `ChatRepository.LenientOnlyAfterStrict` | app/src/main/java/com/farionik/aiadvent/data/repository/ChatRepositoryImpl.kt:28-37 | when the strict decode succeeds the lenient decoder has no influence on the result |
| `ChatRepository.EchoInvariant` | app/src/main/java/com/farionik/aiadvent/data/repository/ChatRepositoryImpl.kt:51-57 | a decoded turn is resent as an assistant message whose content is the original content, byte for byte |
| `ChatRepository.EchoInHistory` | app/src/main/java/com/farionik/aiadvent/data/network/ApiClient.kt:62-77 | a decoded turn at history index i >= 1 is outbound message i with its original content |
| `ChatRepository.SendMessage` | app/src/main/java/com/farionik/aiadvent/data/repository/ChatRepositoryImpl.kt:21-63 | a failed call is returned as the failure and nothing is decoded; a returned call always gives success with the decoded reply of the first content |
| `ChatStore.CreateInitialMessages` | app/src/main/java/com/farionik/aiadvent/presentation/mvi/ChatStore.kt:30-55 | exactly one non-user turn; if the greeting parses, its message, options and the greeting source as `rawJson`; otherwise the fixed greeting with no `rawJson` |
| `ChatStore.InitialState` | app/src/main/java/com/farionik/aiadvent/presentation/mvi/ChatStore.kt:18-23 | the default state has empty input, is not loading, has no error, and holds one assistant greeting |
| `ChatStoreFactory.Reduce` | app/src/main/java/com/farionik/aiadvent/presentation/mvi/ChatStoreFactory.kt:120-138 | the transcript only grows under any message, and a terminal message (reply or failure) ends loading |
| `ChatStoreFactory.ReduceEffects` | app/src/main/java/com/farionik/aiadvent/presentation/mvi/ChatStoreFactory.kt:120-138 | per message: which fields change and to what, and that all other fields are unchanged |
| `ChatStoreFactory.ReduceAppendsAtMostOne` | app/src/main/java/com/farionik/aiadvent/presentation/mvi/ChatStoreFactory.kt:120-138 | the old transcript is a prefix of the new one, longer by exactly one turn for the three appending messages; terminal messages clear `isLoading` |
| `ChatStoreFactory.ReplayGrows` | app/src/main/java/com/farionik/aiadvent/presentation/mvi/ChatStoreFactory.kt:119-139 | along any event sequence the transcript only grows, by at most one turn per event |
| `ChatStoreFactory.RequestOutcome` | app/src/main/java/com/farionik/aiadvent/presentation/mvi/ChatStoreFactory.kt:119-138 | any run of user turn, loading, calls, one terminal message and an optional label leaves the user turn and the terminal turn appended, the input cleared, loading over, and the error set iff the terminal message is a failure |
| `ChatStoreFactory.SendEvents` | app/src/main/java/com/farionik/aiadvent/presentation/mvi/ChatStoreFactory.kt:52-66 | a send run has four events on success and five on failure |
| `ChatStoreFactory.SendOrder` | app/src/main/java/com/farionik/aiadvent/presentation/mvi/ChatStoreFactory.kt:52-66 | the user turn is dispatched first, loading next, then the call, then exactly one terminal message: the reply on success; on failure the "Ошибка: …" text, followed by a label with the same text; a label appears iff the call failed |
| `ChatStoreFactory.SendOutcome` | app/src/main/java/com/farionik/aiadvent/presentation/mvi/ChatStoreFactory.kt:52-66 | afterwards the transcript gained the user turn and the reply or error turn; input is cleared; loading is over; the error is set iff the call failed |
| `ChatStoreFactory.FactLines` | app/src/main/java/com/farionik/aiadvent/presentation/mvi/ChatStoreFactory.kt:92-94 | the bullet lines are empty exactly when there are no facts |
| `ChatStoreFactory.BuildCountryReport` | app/src/main/java/com/farionik/aiadvent/presentation/mvi/ChatStoreFactory.kt:80-96 | the string builder produces the fixed lines, then the facts heading and one bullet line per fact in order, only when there are facts |
| `ChatStoreFactory.FactsSectionOnlyWithFacts` | app/src/main/java/com/farionik/aiadvent/presentation/mvi/ChatStoreFactory.kt:90-95 | without facts the report is exactly the fixed lines; with facts it is longer and begins with the fixed lines followed by the facts heading |
| `ChatStoreFactory.LookupEvents` | app/src/main/java/com/farionik/aiadvent/presentation/mvi/ChatStoreFactory.kt:78-103 | the lookup run starts with the lookup call and has two events on success and three on failure |
| `ChatStoreFactory.AfterCheck` | app/src/main/java/com/farionik/aiadvent/presentation/mvi/ChatStoreFactory.kt:74-114 | no use case is called after a validation that did not say "country"; a failed validation gives two events, the second of them a label |
| `ChatStoreFactory.CountryStart` | app/src/main/java/com/farionik/aiadvent/presentation/mvi/ChatStoreFactory.kt:68-74 | for any request text: the request turn is dispatched first, loading next, then the validation call |
| `ChatStoreFactory.LookupOnlyForCountries` | app/src/main/java/com/farionik/aiadvent/presentation/mvi/ChatStoreFactory.kt:74-78 | the lookup use case is called if and only if the validation says the name is a country |
| `ChatStoreFactory.CountryLabelOrder` | app/src/main/java/com/farionik/aiadvent/presentation/mvi/ChatStoreFactory.kt:97-114 | a label is published iff one of the two calls failed (not for "not a country"); exactly one terminal message, last or followed only by the label that repeats its text |
| `ChatStoreFactory.CountryEventsByBranch` | app/src/main/java/com/farionik/aiadvent/presentation/mvi/ChatStoreFactory.kt:73-114 | the branch-by-branch reading of the executor (validation failed / not a country / lookup) gives the same events as the request-run shape |
| `ChatStoreFactory.CountryOutcome` | app/src/main/java/com/farionik/aiadvent/presentation/mvi/ChatStoreFactory.kt:68-116 | afterwards the transcript gained the request turn and the report or error turn; loading is over; the error is unset iff the lookup succeeded; "not a country" sets the fixed message |
| `ChatStoreFactory.Store.constructor` | app/src/main/java/com/farionik/aiadvent/presentation/mvi/ChatStoreFactory.kt:21-27 | the store starts in the default state with an empty event log |
| `ChatStoreFactory.Store.Record` | app/src/main/java/com/farionik/aiadvent/presentation/mvi/ChatStoreFactory.kt:21-27 | logging an event keeps the state the replay of the log: the state takes one step and the event is appended |
| `ChatStoreFactory.Store.Dispatch` | app/src/main/java/com/farionik/aiadvent/presentation/mvi/ChatStoreFactory.kt:21-27 | dispatching runs the reducer on the current state and logs the message |
| `ChatStoreFactory.Store.Publish` | app/src/main/java/com/farionik/aiadvent/presentation/mvi/ChatStoreFactory.kt:63 | publishing a label logs it and leaves the state unchanged |
| `ChatStoreFactory.Store.SendMessage` | app/src/main/java/com/farionik/aiadvent/presentation/mvi/ChatStoreFactory.kt:52-66 | logs exactly the send events for the use case's outcome; the state is their replay, the transcript only grew and loading is over |
| `ChatStoreFactory.Store.LookUpCountry` | app/src/main/java/com/farionik/aiadvent/presentation/mvi/ChatStoreFactory.kt:78-103 | logs the lookup call and then the report or the failure with its label |
| `ChatStoreFactory.Store.StartCountryRequest` | app/src/main/java/com/farionik/aiadvent/presentation/mvi/ChatStoreFactory.kt:69-74 | logs the request turn, the start of loading and the validation call, in that order |
| `ChatStoreFactory.Store.HandleValidation` | app/src/main/java/com/farionik/aiadvent/presentation/mvi/ChatStoreFactory.kt:74-114 | logs exactly the branch-by-branch events for the validation result and the lookup outcome |
| `ChatStoreFactory.Store.GetCountryInfo` | app/src/main/java/com/farionik/aiadvent/presentation/mvi/ChatStoreFactory.kt:68-116 | logs exactly the country events for the two use cases' outcomes; the state is their replay, the transcript only grew and loading is over |
| `ChatStoreFactory.Store.ExecuteIntent` | app/src/main/java/com/farionik/aiadvent/presentation/mvi/ChatStoreFactory.kt:38-50 | input edits dispatch one message; send and country intents run their paths; the two unhandled intents change nothing |

## Left out

- HTTP transport. The Ktor client, its logging plugin and `close()` are not
  modelled. The POST is a function parameter from url, Authorization header
  and request to the raw body or the exception thrown. The API key appears
  only in that header.
- JSON text parsing. `decodeFromString` (lenient, unknown keys ignored,
  coercion) is not modelled. The strict, lenient, envelope and country
  decoders are abstract partial functions passed as parameters.
- Logging. Every `Log.*` call is left out; none of them affects a result.
- Coroutines. `scope.launch` and `withContext(Dispatchers.IO)` are not
  modelled, and neither is disposal of the store. Each intent runs to the end
  before the next one starts.
- `ChatMessage.timestamp`. It reads the clock, and no code in the core reads
  it back.
- Temperature. It is a Kotlin `Double`, kept as a Dafny `real`, and only its
  default is stated. `Int` and `Long` fields are unbounded integers; the core
  does no arithmetic on them.
- External prompt text. `SystemPrompts` is not part of this model: the
  sales-consultant prompt and the initial greeting are parameters.
- `CountryInfo`. Its declaration is not part of this model. The record has
  the fields the store reads, and every field is kept as the text it is
  rendered with. `GetCountryInfoUseCase` and `ValidateCountryNameUseCase`
  are function parameters.
- `SendMessageUseCase` and the `ChatRepository` interface. The first only
  forwards to the repository; the second is only signatures. The store is
  not wired to `ChatRepository.SendMessage`, because its call site passes a
  string.
- MainActivity's send-enable predicate (`inputText.isNotBlank() && !isLoading`)
  is UI and is not modelled. So nothing here stops a second request from
  overlapping the first.
- Intent union. It has five variants here, not four, because the executor
  handles `GetCountryInfo`.
- Shared result list. Kotlin's `extractStrings` appends to a list captured
  by its closure. Here that list is passed in and returned.
- `ChatStoreFactory.FactsSectionOnlyWithFacts`: states where the facts
  section starts, not its full text. The full text is stated by
  `ChatStoreFactory.BuildCountryReport`.
