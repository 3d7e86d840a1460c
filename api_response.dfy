/** The provider's response envelope with its default values, and the
    country-lookup decoding of the first choice's content. */
module ResponseDto {
  import opened Wrappers

  datatype ResponseMessage = ResponseMessage(
    content: string := "",
    reasoningContent: Option<string> := None,
    role: string := "")

  datatype Choice = Choice(
    finishReason: string := "",
    index: int := 0,
    message: ResponseMessage := ResponseMessage())

  datatype PromptTokensDetails = PromptTokensDetails(cachedTokens: int := 0)

  datatype Usage = Usage(
    completionTokens: int := 0,
    promptTokens: int := 0,
    promptTokensDetails: Option<PromptTokensDetails> := None,
    totalTokens: int := 0)

  /** `error: {message, type, code?}`. */
  datatype ErrorResponse = ErrorResponse(
    message: string := "",
    errorType: string := "",
    code: Option<string> := None)

  /** The envelope; every field has a default, so `{}` decodes to `ApiResponse()`. */
  datatype ApiResponse = ApiResponse(
    choices: seq<Choice> := [],
    created: int := 0,
    id: string := "",
    model: string := "",
    requestId: string := "",
    usage: Usage := Usage(),
    error: Option<ErrorResponse> := None)

  /** The country-lookup record. Its declaration is not part of this model;
      the fields are those the store reads, every one kept as the text it is
      rendered with, plus the content it was decoded from. */
  datatype CountryInfo = CountryInfo(
    countryName: string,
    capital: string,
    population: string,
    area: string,
    region: string,
    officialLanguage: string,
    currency: string,
    callingCode: string,
    timeZone: string,
    interestingFacts: seq<string>,
    rawJson: Option<string> := None)

  /** `ApiResponse.parseCountryInfo()`, with the lenient `CountryInfo`
      decoder as an abstract partial function (`None` for any exception). */
  function ParseCountryInfo(response: ApiResponse, decode: string -> Option<CountryInfo>): (r: Option<CountryInfo>)
    ensures r.None? <==> response.choices == [] || decode(response.choices[0].message.content).None?
    ensures r.Some? ==>
              var content := response.choices[0].message.content;
              r.value == decode(content).value.(rawJson := Some(content))
  {
    if response.choices == [] then None
    else
      var content := response.choices[0].message.content;
      match decode(content)
      case None => None
      case Some(info) => Some(info.(rawJson := Some(content)))
  }

  /** An envelope with no data has no choices, zero usage and no error, and
      yields no country record; a choice without a message has content "". */
  lemma EmptyEnvelope(decode: string -> Option<CountryInfo>)
    ensures ApiResponse().choices == [] && ApiResponse().error == None
    ensures ApiResponse().usage == Usage(0, 0, None, 0)
    ensures ParseCountryInfo(ApiResponse(), decode) == None
    ensures Choice().message.content == ""
  {
  }

  /** Spells out, field by field, what the contract of `ParseCountryInfo`
      already states: a decoded country record keeps its own fields and
      carries the content it came from verbatim. */
  lemma CountryInfoKeepsContent(response: ApiResponse, decode: string -> Option<CountryInfo>)
    requires ParseCountryInfo(response, decode).Some?
    ensures var info := ParseCountryInfo(response, decode).value;
      && info == decode(response.choices[0].message.content).value.(rawJson := Some(response.choices[0].message.content))
      && info.rawJson == Some(response.choices[0].message.content)
      && info.interestingFacts == decode(response.choices[0].message.content).value.interestingFacts
      && info.countryName == decode(response.choices[0].message.content).value.countryName
  {
  }
}
