/**
 * `fetchSeriesInfo` and `fetchActorInfo` of services/geminiService.ts. The
 * environment's API key, the model call and `JSON.parse` are parameters: the
 * model call either answers or throws with a message, and the parser either
 * throws (None), yields JSON `null` (Some(None)) or yields a record.
 */
module GeminiService {
  import opened Wrappers
  import opened Types
  import opened Extraction
  import opened Prompts

  /** The model identifier both operations ask for. */
  const ModelName: string := "gemini-2.5-flash"

  const ApiKeyMissingMessage: string := "API_KEY environment variable not set"
  const SeriesFormatMessage: string :=
    "Could not process the information for the series. The format received was invalid."
  const ActorFormatMessage: string := "No se pudo procesar la información del actor."

  /** One `generateContent` request: client key, model, prompt, and whether Google Search grounding is on. */
  datatype Request = Request(apiKey: string, model: string, contents: string, googleSearch: bool)

  datatype GroundingMetadata = GroundingMetadata(groundingChunks: Option<seq<GroundingChunk>>)
  datatype Candidate = Candidate(groundingMetadata: Option<GroundingMetadata>)

  /** A model answer: its text (absent when the model produced none) and its candidates. */
  datatype Response = Response(text: Option<string>, candidates: Option<seq<Candidate>>)

  /** The model call: an answer or the message of the error it threw. */
  type Generate = Request -> Result<Response, string>

  /** `JSON.parse` at a record type: None when it throws, Some(None) for JSON `null`. */
  type JsonParse<T> = string -> Option<Option<T>>

  /** What a series lookup resolves to. */
  datatype SeriesResult = SeriesResult(seriesInfo: Option<SeriesInfo>, sources: seq<GroundingChunk>)

  /** What one call of a fetch operation did: the requests it sent, and how it ended. */
  datatype Call<T> = Call(requests: seq<Request>, outcome: Result<T, string>)

  /** `!process.env.API_KEY`: the key is unset or empty. */
  predicate KeyMissing(apiKey: Option<string>) {
    apiKey.None? || apiKey.value == ""
  }

  /**
   * `response.candidates?.[0]?.groundingMetadata?.groundingChunks || []`:
   * the first candidate's grounding chunks when the whole path is present,
   * and the empty list otherwise.
   */
  function Sources(response: Response): (chunks: seq<GroundingChunk>)
    ensures (&& response.candidates.Some? && |response.candidates.value| > 0
             && response.candidates.value[0].groundingMetadata.Some?
             && response.candidates.value[0].groundingMetadata.value.groundingChunks.Some?)
            ==> chunks == response.candidates.value[0].groundingMetadata.value.groundingChunks.value
    ensures (|| response.candidates.None? || |response.candidates.value| == 0
             || response.candidates.value[0].groundingMetadata.None?
             || response.candidates.value[0].groundingMetadata.value.groundingChunks.None?)
            ==> chunks == []
  {
    match response.candidates
    case None => []
    case Some(cs) =>
      if |cs| == 0 then []
      else match cs[0].groundingMetadata
        case None => []
        case Some(m) => match m.groundingChunks
          case None => []
          case Some(chunks) => chunks
  }

  /** The `try` block shared by both operations: extract, then parse; any failure becomes `message`. */
  function ParseAnswer<T>(text: Option<string>, parse: JsonParse<T>, message: string): (r: Result<Option<T>, string>)
    ensures r.Failure? ==> r.error == message
    ensures r.Success? <==> text.Some? && parse(ExtractJson(text.value)).Some?
    ensures r.Success? ==> r.value == parse(ExtractJson(text.value)).value
  {
    match text
    case None => Failure(message)
    case Some(t) =>
      match parse(ExtractJson(t))
      case None => Failure(message)
      case Some(v) => Success(v)
  }

  /** `fetchSeriesInfo(seriesName)`. */
  function FetchSeriesInfo(apiKey: Option<string>, seriesName: string, generate: Generate,
                           parse: JsonParse<SeriesInfo>): (c: Call<SeriesResult>)
    // A missing key fails before any request is made.
    ensures KeyMissing(apiKey) ==> c == Call([], Failure(ApiKeyMissingMessage))
    // Otherwise exactly one grounded request carries the series prompt.
    ensures !KeyMissing(apiKey) ==>
      c.requests == [Request(apiKey.value, ModelName, SeriesPrompt(seriesName), true)]
    // A thrown model call passes its message through.
    ensures !KeyMissing(apiKey) && generate(c.requests[0]).Failure? ==>
      c.outcome == Failure(generate(c.requests[0]).error)
    // An answer that is absent or does not parse after extraction fails with the fixed message.
    ensures !KeyMissing(apiKey) && generate(c.requests[0]).Success? ==>
      var text := generate(c.requests[0]).value.text;
      (text.None? || parse(ExtractJson(text.value)).None?) ==> c.outcome == Failure(SeriesFormatMessage)
    // On success the record is the parse of the extracted text, with the answer's sources.
    ensures c.outcome.Success? ==>
      && !KeyMissing(apiKey) && generate(c.requests[0]).Success?
      && var response := generate(c.requests[0]).value;
         && response.text.Some?
         && parse(ExtractJson(response.text.value)) == Some(c.outcome.value.seriesInfo)
         && c.outcome.value.sources == Sources(response)
    // Conversely, an answer whose extracted text parses succeeds with that record and the sources.
    ensures !KeyMissing(apiKey) && generate(c.requests[0]).Success? ==>
      var response := generate(c.requests[0]).value;
      response.text.Some? && parse(ExtractJson(response.text.value)).Some? ==>
        c.outcome == Success(SeriesResult(parse(ExtractJson(response.text.value)).value, Sources(response)))
  {
    if KeyMissing(apiKey) then Call([], Failure(ApiKeyMissingMessage))
    else
      var request := Request(apiKey.value, ModelName, SeriesPrompt(seriesName), true);
      match generate(request)
      case Failure(e) => Call([request], Failure(e))
      case Success(response) =>
        var sources := Sources(response);
        match ParseAnswer(response.text, parse, SeriesFormatMessage)
        case Failure(e) => Call([request], Failure(e))
        case Success(info) => Call([request], Success(SeriesResult(info, sources)))
  }

  /** `fetchActorInfo(actorName)`; the answer's grounding chunks are not used. */
  function FetchActorInfo(apiKey: Option<string>, actorName: string, generate: Generate,
                          parse: JsonParse<ActorInfo>): (c: Call<Option<ActorInfo>>)
    ensures KeyMissing(apiKey) ==> c == Call([], Failure(ApiKeyMissingMessage))
    ensures !KeyMissing(apiKey) ==>
      c.requests == [Request(apiKey.value, ModelName, ActorPrompt(actorName), true)]
    ensures !KeyMissing(apiKey) && generate(c.requests[0]).Failure? ==>
      c.outcome == Failure(generate(c.requests[0]).error)
    ensures !KeyMissing(apiKey) && generate(c.requests[0]).Success? ==>
      var text := generate(c.requests[0]).value.text;
      (text.None? || parse(ExtractJson(text.value)).None?) ==> c.outcome == Failure(ActorFormatMessage)
    ensures c.outcome.Success? ==>
      && !KeyMissing(apiKey) && generate(c.requests[0]).Success?
      && var response := generate(c.requests[0]).value;
         && response.text.Some?
         && parse(ExtractJson(response.text.value)) == Some(c.outcome.value)
    ensures !KeyMissing(apiKey) && generate(c.requests[0]).Success? ==>
      var response := generate(c.requests[0]).value;
      response.text.Some? && parse(ExtractJson(response.text.value)).Some? ==>
        c.outcome == Success(parse(ExtractJson(response.text.value)).value)
  {
    if KeyMissing(apiKey) then Call([], Failure(ApiKeyMissingMessage))
    else
      var request := Request(apiKey.value, ModelName, ActorPrompt(actorName), true);
      match generate(request)
      case Failure(e) => Call([request], Failure(e))
      case Success(response) => Call([request], ParseAnswer(response.text, parse, ActorFormatMessage))
  }
}
