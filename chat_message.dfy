/** The transcript entry shared by the data and presentation layers. */
module Domain {
  import opened Wrappers
  import opened ConsultantDto

  /** One turn of the conversation. `rawJson` is the provider's content kept
      verbatim for assistant turns, `options` the structured choices of a
      decoded reply, `isParsingError` marks a reply shown as raw text. */
  datatype ChatMessage = ChatMessage(
    text: string,
    isUser: bool,
    rawJson: Option<string> := None,
    options: Option<seq<ConsultantOption>> := None,
    isParsingError: bool := false)
}
