/** `GeminiAIService`: one unretried `generateContent` call whose failures all
    propagate to the caller, and whose reply is reduced to the first
    candidate's first part text. */
module GeminiAIService {
  import opened Runtime
  import opened GeminiWire
  import GeminiService

  /** This file's own `GeminiConfiguration`: a key and a base address, the
      latter unused by the call. */
  datatype GeminiConfiguration = GeminiConfiguration(apiKey: string, baseUrl: string)

  const DefaultConfiguration := GeminiConfiguration("", "https://generativelanguage.googleapis.com")

  datatype Part = Part(text: Option<string>)
  datatype Content = Content(parts: Option<seq<Option<Part>>>)
  datatype Candidate = Candidate(content: Option<Content>)
  datatype GeminiResponse = GeminiResponse(candidates: Option<seq<Option<Candidate>>>)

  /** `ReadFromJsonAsync<GeminiResponse>`: a document, `null`, or an exception. */
  datatype ResponseRead = ReadNull | ReadDoc(doc: GeminiResponse) | ReadFailed(error: Exception)

  type ResponseReader = string -> ResponseRead

  /** Posting a request body to an address: a response or an exception. */
  type Poster = (string, WireRequest) -> HttpOutcome

  const ContentGeneration := GenerationConfig(40, 4096, Some("application/json"))

  const ModelAddress := "https://generativelanguage.googleapis.com/v1beta/models/gemini-3-pro:generateContent?key="

  /** The fixed address with the key appended; the configured base address
      plays no part. */
  function RequestUri(config: GeminiConfiguration): (r: string)
    ensures ModelAddress <= r && r[|ModelAddress|..] == config.apiKey
  {
    ModelAddress + config.apiKey
  }

  /** `BuildRequest`: the prompt part, the images' parts appended in order
      when there are images, then the audio part when there is audio. */
  function BuildRequest(prompt: string, images: Option<seq<Bytes>>, audio: Option<Bytes>): (r: WireRequest)
    ensures MultiModalLayout(r.parts, prompt, images.GetOr([]), audio)
    ensures r.role == "user" && r.generationConfig == ContentGeneration && r.safetySettings == []
  {
    var withPrompt := [TextPart(prompt)];
    var withImages := if images.Some? then withPrompt + ImageParts(images.value) else withPrompt;
    var withAudio := if audio.Some? then withImages + [InlineDataPart(WavMime, audio.value)] else withImages;
    ConcatenationHasLayout(prompt, images.GetOr([]), audio);
    assert withAudio == [TextPart(prompt)] + ImageParts(images.GetOr([])) + AudioParts(audio);
    WireRequest("user", withAudio, ContentGeneration, [])
  }

  /** The two clients put the same parts in the same order; they differ only
      in the token limit (4096 against 2048) and in the safety settings. */
  lemma BothClientsSendTheSameParts(prompt: string, images: Option<seq<Bytes>>, audio: Option<Bytes>)
    ensures BuildRequest(prompt, images, audio).parts == GeminiService.MultiModalRequest(images, audio, prompt).parts
    ensures BuildRequest(prompt, images, audio).generationConfig.maxOutputTokens == 4096
    ensures GeminiService.MultiModalRequest(images, audio, prompt).generationConfig.maxOutputTokens == 2048
  {
    LayoutDetermines(BuildRequest(prompt, images, audio).parts,
                     GeminiService.MultiModalRequest(images, audio, prompt).parts,
                     prompt, images.GetOr([]), audio);
  }

  /** `xs?.FirstOrDefault()`. */
  function FirstOrNull<T>(xs: Option<seq<Option<T>>>): (r: Option<T>)
    ensures r.Some? <==> xs.Some? && |xs.value| > 0 && xs.value[0].Some?
    ensures r.Some? ==> r == xs.value[0]
  {
    if xs.None? || |xs.value| == 0 then None else xs.value[0]
  }

  /** Every link of `result?.Candidates?.First?.Content?.Parts?.First?.Text`
      is present, and the text is `t`. */
  ghost predicate FirstPartText(result: Option<GeminiResponse>, t: string) {
    && result.Some?
    && var cs := result.value.candidates;
    && cs.Some? && |cs.value| > 0 && cs.value[0].Some?
    && var content := cs.value[0].value.content;
    && content.Some?
    && var ps := content.value.parts;
    && ps.Some? && |ps.value| > 0 && ps.value[0].Some?
    && ps.value[0].value.text == Some(t)
  }

  /** The null-safe chain with `?? ""`: the first candidate's first part text
      when every link is there, and "" when any link is null or any list empty. */
  function ExtractText(result: Option<GeminiResponse>): (text: string)
    ensures forall t :: FirstPartText(result, t) ==> text == t
    ensures (forall t :: !FirstPartText(result, t)) ==> text == ""
  {
    var candidate := if result.Some? then FirstOrNull(result.value.candidates) else None;
    var content := if candidate.Some? then candidate.value.content else None;
    var part := if content.Some? then FirstOrNull(content.value.parts) else None;
    if part.Some? && part.value.text.Some? then
      assert FirstPartText(result, part.value.text.value);
      part.value.text.value
    else ""
  }

  /** Awaiting `GenerateContentAsync`: the text, or the exception rethrown. */
  datatype ContentOutcome = TextReturned(text: string) | Rethrown(error: Exception)

  /** `GenerateContentAsync`: a transport failure, a non-success status (as the
      exception `EnsureSuccessStatusCode` throws) and a reader failure all reach
      the caller unchanged; otherwise the extracted text is returned. */
  function GenerateContent(config: GeminiConfiguration, post: Poster, read: ResponseReader,
                           prompt: string, images: Option<seq<Bytes>>, audio: Option<Bytes>): (r: ContentOutcome)
    ensures var outcome := post(RequestUri(config), BuildRequest(prompt, images, audio));
      && (outcome.Raised? ==> r == Rethrown(outcome.error))
      && (outcome.Responded? && !IsSuccessStatusCode(outcome.response.statusCode) ==>
            && r.Rethrown? && r.error.HttpRequest?
            && NotSuccessPrefix <= r.error.Message())
      && (r.TextReturned? ==>
            && outcome.Responded? && IsSuccessStatusCode(outcome.response.statusCode)
            && !read(outcome.response.body).ReadFailed?)
      && (outcome.Responded? && IsSuccessStatusCode(outcome.response.statusCode) ==>
            match read(outcome.response.body)
            case ReadFailed(e) => r == Rethrown(e)
            case ReadNull => r == TextReturned("")
            case ReadDoc(doc) => r == TextReturned(ExtractText(Some(doc))))
  {
    match post(RequestUri(config), BuildRequest(prompt, images, audio))
    case Raised(e) => Rethrown(e)
    case Responded(response) =>
      match EnsureSuccessStatusCode(response)
      case Some(e) => Rethrown(e)
      case None =>
        match read(response.body)
        case ReadFailed(e) => Rethrown(e)
        case ReadNull => TextReturned(ExtractText(None))
        case ReadDoc(doc) => TextReturned(ExtractText(Some(doc)))
  }
}
