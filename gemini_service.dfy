/** `GeminiService`: posts `generateContent` requests through a resilience
    policy (retry around a circuit breaker around a timeout) and maps the
    outcome to a `GeminiResponse` without ever throwing. Polly's engines are
    not modelled: the breaker and the timeout appear only as the exceptions an
    attempt may end with, and the retry layer follows Polly's documented
    wait-and-retry contract over the outcomes of successive attempts. */
module GeminiService {
  import opened Runtime
  import opened Text
  import opened GeminiWire

  datatype GeminiConfiguration = GeminiConfiguration(
    apiKey: string, baseUrl: string, model: string, maxRetries: int, timeoutSeconds: int)

  const DefaultConfiguration := GeminiConfiguration("", "https://generativelanguage.googleapis.com", "gemini-3-pro", 3, 30)

  // ------------------------------------------------------ resilience policy

  /** The exception classes the policies distinguish. */
  datatype ExceptionType =
    | HttpRequestException
    | TaskCanceledException
    | TimeoutRejectedException
    | BrokenCircuitException
    | OtherException

  function TypeOf(e: Exception): ExceptionType {
    match e
    case HttpRequest(_) => HttpRequestException
    case TaskCanceled(_) => TaskCanceledException
    case TimeoutRejected(_) => TimeoutRejectedException
    case BrokenCircuit(_) => BrokenCircuitException
    case _ => OtherException
  }

  /** `Handle<...>().Or<...>().OrResult(r => (int)r.StatusCode >= minFailureStatus)`. */
  datatype OutcomeFilter = OutcomeFilter(exceptions: set<ExceptionType>, minFailureStatus: nat)

  predicate Handles(f: OutcomeFilter, o: HttpOutcome) {
    match o
    case Raised(e) => TypeOf(e) in f.exceptions
    case Responded(r) => r.statusCode >= f.minFailureStatus
  }

  const RetryFilter := OutcomeFilter({HttpRequestException, TaskCanceledException}, 500)
  const BreakerFilter := OutcomeFilter({HttpRequestException}, 500)

  /** One layer of `Policy.WrapAsync`, outermost first. */
  datatype PolicyLayer =
    | WaitAndRetry(filter: OutcomeFilter, retryCount: nat)
    | CircuitBreaker(filter: OutcomeFilter, handledEventsAllowedBeforeBreaking: nat, durationOfBreakSeconds: nat)
    | Timeout(seconds: nat)

  /** `BuildResiliencePolicy`, as data. A negative retry count or a non-positive
      timeout makes construction throw `ArgumentOutOfRangeException`: `None`. */
  function BuildResiliencePolicy(config: GeminiConfiguration): (layers: Option<seq<PolicyLayer>>)
    ensures layers.Some? <==> config.maxRetries >= 0 && config.timeoutSeconds > 0
    ensures layers.Some? ==>
      && |layers.value| == 3
      && layers.value[0] == WaitAndRetry(RetryFilter, config.maxRetries)
      && layers.value[1] == CircuitBreaker(BreakerFilter, 3, 60)
      && layers.value[2] == Timeout(config.timeoutSeconds)
  {
    if config.maxRetries < 0 || config.timeoutSeconds <= 0 then None
    else Some([WaitAndRetry(RetryFilter, config.maxRetries), CircuitBreaker(BreakerFilter, 3, 60),
               Timeout(config.timeoutSeconds)])
  }

  /** The retry layer handles transport failures, cancellations (which is how
      `HttpClient`'s own timeout surfaces) and 5xx responses, and nothing else. */
  lemma RetryHandlesExactly(o: HttpOutcome)
    ensures Handles(RetryFilter, o) <==>
      || (o.Raised? && (o.error.HttpRequest? || o.error.TaskCanceled?))
      || (o.Responded? && o.response.statusCode >= 500)
  {
  }

  /** The breaker counts transport failures and 5xx responses only, and
      everything it counts the retry layer retries. */
  lemma BreakerCountsExactly(o: HttpOutcome)
    ensures Handles(BreakerFilter, o) <==>
      || (o.Raised? && o.error.HttpRequest?)
      || (o.Responded? && o.response.statusCode >= 500)
    ensures Handles(BreakerFilter, o) ==> Handles(RetryFilter, o)
  {
  }

  /** What neither layer handles: successful responses, client errors such as
      429, a rejection by the timeout layer and a rejection by an open circuit. */
  lemma UnhandledOutcomes(o: HttpOutcome)
    requires || (o.Responded? && o.response.statusCode < 500)
             || (o.Raised? && (o.error.TimeoutRejected? || o.error.BrokenCircuit?))
    ensures !Handles(RetryFilter, o) && !Handles(BreakerFilter, o)
  {
  }

  /** In the built policy the breaker only counts what the retry layer around
      it would retry anyway. */
  lemma BuiltBreakerWithinRetry(config: GeminiConfiguration, o: HttpOutcome)
    requires BuildResiliencePolicy(config).Some?
    ensures var layers := BuildResiliencePolicy(config).value;
      Handles(layers[1].filter, o) ==> Handles(layers[0].filter, o)
  {
    BreakerCountsExactly(o);
  }

  // ---------------------------------------------------------------- backoff

  function Pow2(k: nat): (r: nat)
    ensures r >= 1
  {
    if k == 0 then 1 else 2 * Pow2(k - 1)
  }

  lemma {:induction false} Pow2Monotone(a: nat, b: nat)
    requires a <= b
    ensures Pow2(a) <= Pow2(b)
    decreases b
  {
    if a < b {
      Pow2Monotone(a, b - 1);
    }
  }

  /** The `sleepDurationProvider`, in seconds: retry `k` (from 1) waits 2^k. */
  function SleepDuration(retry: nat): nat {
    Pow2(retry)
  }

  /** The waits before retries 1 to `n`. */
  function BackoffSchedule(n: nat): (s: seq<nat>)
    ensures |s| == n
    ensures forall i :: 0 <= i < n ==> s[i] == SleepDuration(i + 1)
  {
    seq(n, i requires 0 <= i < n => SleepDuration(i + 1))
  }

  function Sum(xs: seq<nat>): nat {
    if |xs| == 0 then 0 else Sum(xs[..|xs| - 1]) + xs[|xs| - 1]
  }

  /** The waits before `n` retries add up to 2^(n+1) - 2 seconds. */
  lemma {:induction false} TotalBackoff(n: nat)
    ensures Sum(BackoffSchedule(n)) == Pow2(n + 1) - 2
  {
    if n > 0 {
      assert BackoffSchedule(n)[..n - 1] == BackoffSchedule(n - 1);
      TotalBackoff(n - 1);
    }
  }

  /** One execution through the retry layer: the outcome it returns, the
      number of attempts and the waits between them. */
  datatype RetryRun = RetryRun(final: HttpOutcome, attempts: nat, sleeps: seq<nat>)

  /** Polly's wait-and-retry over the outcomes of attempts `tried`, `tried + 1`,
      ...: a handled outcome is retried after the scheduled wait while retries
      remain; anything else, or the last allowed attempt, ends the run. */
  function RetryFrom(filter: OutcomeFilter, retryCount: nat, attempt: nat -> HttpOutcome, tried: nat): (r: RetryRun)
    requires tried <= retryCount
    ensures 1 <= r.attempts <= retryCount - tried + 1
    ensures r.final == attempt(tried + r.attempts - 1)
    ensures |r.sleeps| == r.attempts - 1
    ensures forall i :: 0 <= i < |r.sleeps| ==> r.sleeps[i] == SleepDuration(tried + i + 1)
    ensures forall j :: tried <= j < tried + r.attempts - 1 ==> Handles(filter, attempt(j))
    ensures !Handles(filter, r.final) || tried + r.attempts - 1 == retryCount
    decreases retryCount - tried
  {
    var o := attempt(tried);
    if Handles(filter, o) && tried < retryCount then
      var rest := RetryFrom(filter, retryCount, attempt, tried + 1);
      RetryRun(rest.final, rest.attempts + 1, [SleepDuration(tried + 1)] + rest.sleeps)
    else
      RetryRun(o, 1, [])
  }

  /** Waits that match the schedule one by one are the schedule. */
  lemma FollowsSchedule(sleeps: seq<nat>)
    requires forall i :: 0 <= i < |sleeps| ==> sleeps[i] == SleepDuration(0 + i + 1)
    ensures sleeps == BackoffSchedule(|sleeps|)
  {
  }

  /** A whole run makes at most `retryCount + 1` attempts, waits exactly the
      backoff schedule for the retries it makes, and so waits at most
      2^(retryCount+1) - 2 seconds in total; an unhandled first outcome (a
      success, say) is returned at once. */
  lemma RetryRunBounds(filter: OutcomeFilter, retryCount: nat, attempt: nat -> HttpOutcome)
    ensures var r := RetryFrom(filter, retryCount, attempt, 0);
      && r.attempts <= retryCount + 1
      && r.sleeps == BackoffSchedule(r.attempts - 1)
      && Sum(r.sleeps) <= Pow2(retryCount + 1) - 2
      && (!Handles(filter, attempt(0)) ==> r.attempts == 1 && r.final == attempt(0))
  {
    var r := RetryFrom(filter, retryCount, attempt, 0);
    FollowsSchedule(r.sleeps);
    TotalBackoff(r.attempts - 1);
    Pow2Monotone(r.attempts, retryCount + 1);
    if !Handles(filter, attempt(0)) {
      assert r == RetryRun(attempt(0), 1, []);
    }
  }

  /** With the default configuration: at most four attempts and fourteen
      seconds of waiting (2 + 4 + 8). */
  lemma DefaultRetryBounds(attempt: nat -> HttpOutcome)
    ensures var r := RetryFrom(RetryFilter, DefaultConfiguration.maxRetries, attempt, 0);
      r.attempts <= 4 && Sum(r.sleeps) <= 14
  {
    RetryRunBounds(RetryFilter, 3, attempt);
    assert Pow2(4) == 16;
  }

  // --------------------------------------------------------------- requests

  const MultiModalGeneration := GenerationConfig(40, 2048, Some("application/json"))
  const TextGeneration := GenerationConfig(40, 2048, None)
  const MedicalSafety := [SafetySetting("HARM_CATEGORY_MEDICAL", "BLOCK_NONE")]

  /** The request `BuildMultiModalRequest` assembles. */
  function MultiModalRequest(images: Option<seq<Bytes>>, audio: Option<Bytes>, prompt: string): (r: WireRequest)
    ensures MultiModalLayout(r.parts, prompt, images.GetOr([]), audio)
  {
    ConcatenationHasLayout(prompt, images.GetOr([]), audio);
    WireRequest("user", [TextPart(prompt)] + ImageParts(images.GetOr([])) + AudioParts(audio),
                MultiModalGeneration, MedicalSafety)
  }

  /** The request `GenerateTextAsync` sends: the prompt alone, no response MIME
      type and no safety settings. */
  function TextRequest(prompt: string): (r: WireRequest)
    ensures MultiModalLayout(r.parts, prompt, [], None)
    ensures r.generationConfig.responseMimeType.None? && r.safetySettings == []
  {
    WireRequest("user", [TextPart(prompt)], TextGeneration, [])
  }

  /** The audio analysis request carries only the prompt: the audio is never sent. */
  lemma AudioRequestCarriesOnlyThePrompt(prompt: string)
    ensures MultiModalRequest(Some([]), None, prompt).parts == [TextPart(prompt)]
  {
    assert MultiModalLayout(MultiModalRequest(Some([]), None, prompt).parts, prompt, [], None);
  }

  function Endpoint(model: string): string {
    "/v1/models/" + model + ":generateContent"
  }

  /** The outcome of attempt `k` of posting a request to a path, as seen
      through the breaker and the timeout layers. */
  type Transport = (string, WireRequest, nat) -> HttpOutcome

  /** `_resiliencePolicy.ExecuteAsync(PostAsJsonAsync(...))`: the outermost
      layer of the policy retries the post; the layers inside it are part of
      what each attempt's outcome already reflects. */
  function Send(model: string, retry: PolicyLayer, transport: Transport, request: WireRequest): (r: HttpOutcome)
    requires retry.WaitAndRetry?
    ensures exists k :: 0 <= k <= retry.retryCount && r == transport(Endpoint(model), request, k)
    ensures !Handles(retry.filter, transport(Endpoint(model), request, 0)) ==> r == transport(Endpoint(model), request, 0)
  {
    var attempt := (k: nat) => transport(Endpoint(model), request, k);
    var run := RetryFrom(retry.filter, retry.retryCount, attempt, 0);
    RetryRunBounds(retry.filter, retry.retryCount, attempt);
    assert run.final == transport(Endpoint(model), request, run.attempts - 1);
    run.final
  }

  // ---------------------------------------------------------------- replies

  datatype ApiPart = ApiPart(text: Option<string>)
  datatype ApiContent = ApiContent(parts: Option<seq<Option<ApiPart>>>)
  datatype ApiCandidate = ApiCandidate(content: Option<ApiContent>, finishReason: Option<string>)
  datatype GeminiApiResponse = GeminiApiResponse(candidates: Option<seq<Option<ApiCandidate>>>)

  /** `ReadFromJsonAsync<GeminiApiResponse>`: a document, `null`, or an exception. */
  datatype ApiRead = ReadNull | ReadDoc(doc: GeminiApiResponse) | ReadFailed(error: Exception)

  type ApiReader = string -> ApiRead

  /** The `GeminiResponse` the service returns; unset properties are `None`
      and an unset metadata dictionary is empty. */
  datatype GeminiResponse = GeminiResponse(
    isSuccess: bool, content: Option<string>, error: Option<string>, metadata: map<string, string>)

  function Refused(error: string): GeminiResponse {
    GeminiResponse(false, None, Some(error), map[])
  }

  /** A LINQ search over the parts: a text, no text, or the exception raised on
      reaching a `null` part. */
  datatype TextSearch = FoundText(text: Option<string>) | SearchFaulted(error: Exception)

  /** Every part before position `i` is present and has no text. */
  ghost predicate TextlessUpTo(parts: seq<Option<ApiPart>>, i: nat)
    requires i <= |parts|
  {
    forall j :: 0 <= j < i ==> parts[j] == Some(ApiPart(None))
  }

  /** `Parts.Where(p => p.Text != null).Select(p => p.Text).FirstOrDefault()`. */
  function FirstNonNullText(parts: seq<Option<ApiPart>>): (r: TextSearch)
    ensures r == FoundText(None) <==> TextlessUpTo(parts, |parts|)
    ensures r.FoundText? && r.text.Some? ==>
      exists i :: 0 <= i < |parts| && parts[i] == Some(ApiPart(r.text)) && TextlessUpTo(parts, i)
    ensures r.SearchFaulted? ==>
      r.error == NullReference && exists i :: 0 <= i < |parts| && parts[i].None? && TextlessUpTo(parts, i)
  {
    if |parts| == 0 then FoundText(None)
    else
      match parts[0]
      case None => SearchFaulted(NullReference)
      case Some(ApiPart(Some(t))) => FoundText(Some(t))
      case Some(ApiPart(None)) =>
        var rest := FirstNonNullText(parts[1..]);
        assert forall j :: 1 <= j < |parts| ==> parts[j] == parts[1..][j - 1];
        rest
  }

  const Unavailable := "Service temporarily unavailable. Please try offline mode."
  const NoResponse := "No response from Gemini API"
  const UnexpectedPrefix := "Unexpected error: "
  const ApiReturnedPrefix := "API returned "

  /** The two `catch` blocks of `AnalyzeImagesAsync`. */
  function AnalyzeImagesCatch(e: Exception): (r: GeminiResponse)
    ensures !r.isSuccess
    ensures e.BrokenCircuit? ==> r.error == Some(Unavailable)
    ensures !e.BrokenCircuit? ==> r.error == Some(UnexpectedPrefix + e.Message())
  {
    if e.BrokenCircuit? then Refused(Unavailable) else Refused(UnexpectedPrefix + e.Message())
  }

  /** The response `AnalyzeImagesAsync` builds from the outcome of sending. */
  function ImagesResponse(model: string, outcome: HttpOutcome, read: ApiReader): (r: GeminiResponse)
    ensures r.isSuccess <==> r.error.None?
    ensures outcome.Raised? ==> r == AnalyzeImagesCatch(outcome.error)
    ensures outcome.Responded? && !IsSuccessStatusCode(outcome.response.statusCode) ==>
      && !r.isSuccess
      && r.error == Some(ApiReturnedPrefix + outcome.response.statusName + ": " + outcome.response.body)
    ensures outcome.Responded? && IsSuccessStatusCode(outcome.response.statusCode) ==>
      match read(outcome.response.body)
      case ReadFailed(e) => r == AnalyzeImagesCatch(e)
      case ReadNull => r == Refused(NoResponse)
      case ReadDoc(doc) =>
        if doc.candidates.None? || |doc.candidates.value| == 0 then r == Refused(NoResponse)
        else
          match doc.candidates.value[0]
          case None => r == AnalyzeImagesCatch(NullReference)
          case Some(first) =>
            match first.content
            case None => r == AnalyzeImagesCatch(NullReference)
            case Some(content) =>
              match content.parts
              case None => r == AnalyzeImagesCatch(ArgumentNull("source"))
              case Some(parts) =>
                match FirstNonNullText(parts)
                case SearchFaulted(e) => r == AnalyzeImagesCatch(e)
                case FoundText(text) =>
                  r == GeminiResponse(true, Some(text.GetOr("")), None,
                                      map["model" := model, "finishReason" := first.finishReason.GetOr("unknown")])
    ensures r.isSuccess ==>
      && outcome.Responded? && IsSuccessStatusCode(outcome.response.statusCode)
      && read(outcome.response.body).ReadDoc?
      && var doc := read(outcome.response.body).doc;
      && doc.candidates.Some? && |doc.candidates.value| > 0
      && var first := doc.candidates.value[0];
      && first.Some? && first.value.content.Some? && first.value.content.value.parts.Some?
      && var search := FirstNonNullText(first.value.content.value.parts.value);
      && search.FoundText?
      && r.content == Some(search.text.GetOr(""))
      && r.metadata == map["model" := model, "finishReason" := first.value.finishReason.GetOr("unknown")]
  {
    match outcome
    case Raised(e) => AnalyzeImagesCatch(e)
    case Responded(response) =>
      if !IsSuccessStatusCode(response.statusCode) then
        Refused(ApiReturnedPrefix + response.statusName + ": " + response.body)
      else
        match read(response.body)
        case ReadFailed(e) => AnalyzeImagesCatch(e)
        case ReadNull => Refused(NoResponse)
        case ReadDoc(doc) =>
          if doc.candidates.None? || |doc.candidates.value| == 0 then Refused(NoResponse)
          else
            match doc.candidates.value[0]
            case None => AnalyzeImagesCatch(NullReference)
            case Some(first) =>
              match first.content
              case None => AnalyzeImagesCatch(NullReference)
              case Some(content) =>
                match content.parts
                case None => AnalyzeImagesCatch(ArgumentNull("source"))
                case Some(parts) =>
                  match FirstNonNullText(parts)
                  case SearchFaulted(e) => AnalyzeImagesCatch(e)
                  case FoundText(text) =>
                    GeminiResponse(true, Some(text.GetOr("")), None,
                                   map["model" := model, "finishReason" := first.finishReason.GetOr("unknown")])
  }

  /** Every failure of `AnalyzeImagesAsync` is one of four texts: the open
      circuit, an unexpected exception, a non-success status, or no candidates. */
  lemma ImagesFailureKinds(model: string, outcome: HttpOutcome, read: ApiReader)
    ensures var r := ImagesResponse(model, outcome, read);
      !r.isSuccess ==>
        || r.error == Some(Unavailable)
        || r.error == Some(NoResponse)
        || UnexpectedPrefix <= r.error.value
        || ApiReturnedPrefix <= r.error.value
  {
  }

  /** A 2xx reply whose first candidate has content and parts: the response
      carries the text of the first part that has one, provided only present,
      textless parts come before it; it carries "" when every part is present
      and textless; and it fails with the null-reference text when a `null`
      part comes first. */
  lemma ImagesReplyReadsTheFirstText(model: string, response: HttpResponse, read: ApiReader,
                                     first: ApiCandidate, rest: seq<Option<ApiCandidate>>,
                                     parts: seq<Option<ApiPart>>)
    requires IsSuccessStatusCode(response.statusCode)
    requires read(response.body) == ReadDoc(GeminiApiResponse(Some([Some(first)] + rest)))
    requires first.content == Some(ApiContent(Some(parts)))
    ensures var r := ImagesResponse(model, Responded(response), read);
      var metadata := map["model" := model, "finishReason" := first.finishReason.GetOr("unknown")];
      && (forall i :: 0 <= i < |parts| && TextlessUpTo(parts, i) && parts[i].Some? && parts[i].value.text.Some? ==>
            r == GeminiResponse(true, parts[i].value.text, None, metadata))
      && (TextlessUpTo(parts, |parts|) ==> r == GeminiResponse(true, Some(""), None, metadata))
      && (forall i :: 0 <= i < |parts| && TextlessUpTo(parts, i) && parts[i].None? ==>
            r == AnalyzeImagesCatch(NullReference))
  {
    var search := FirstNonNullText(parts);
    forall i | 0 <= i < |parts| && TextlessUpTo(parts, i) && parts[i].Some? && parts[i].value.text.Some?
      ensures search == FoundText(parts[i].value.text)
    {
      FirstTextIsUnique(parts, i);
    }
    forall i | 0 <= i < |parts| && TextlessUpTo(parts, i) && parts[i].None?
      ensures search == SearchFaulted(NullReference)
    {
      FirstNullIsUnique(parts, i);
    }
  }

  /** The search finds the text of a part preceded only by textless parts. */
  lemma {:induction false} FirstTextIsUnique(parts: seq<Option<ApiPart>>, i: nat)
    requires i < |parts| && TextlessUpTo(parts, i) && parts[i].Some? && parts[i].value.text.Some?
    ensures FirstNonNullText(parts) == FoundText(parts[i].value.text)
    decreases i
  {
    if i > 0 {
      assert parts[0] == Some(ApiPart(None));
      assert forall j :: 0 <= j < |parts| - 1 ==> parts[1..][j] == parts[j + 1];
      FirstTextIsUnique(parts[1..], i - 1);
    }
  }

  /** The search faults on a `null` part preceded only by textless parts. */
  lemma {:induction false} FirstNullIsUnique(parts: seq<Option<ApiPart>>, i: nat)
    requires i < |parts| && TextlessUpTo(parts, i) && parts[i].None?
    ensures FirstNonNullText(parts) == SearchFaulted(NullReference)
    decreases i
  {
    if i > 0 {
      assert parts[0] == Some(ApiPart(None));
      assert forall j :: 0 <= j < |parts| - 1 ==> parts[1..][j] == parts[j + 1];
      FirstNullIsUnique(parts[1..], i - 1);
    }
  }

  /** `Candidates?[0]` or `Parts?[0]` indexes a list that is present but empty. */
  ghost predicate IndexesAnEmptyList(doc: GeminiApiResponse) {
    || doc.candidates == Some([])
    || (&& doc.candidates.Some? && |doc.candidates.value| > 0
        && doc.candidates.value[0].Some?
        && doc.candidates.value[0].value.content.Some?
        && doc.candidates.value[0].value.content.value.parts == Some([]))
  }

  /** Every link of `Candidates?[0]?.Content?.Parts?[0]?.Text` is present and
      the text is `t`. */
  ghost predicate FirstPartTextIs(doc: GeminiApiResponse, t: string) {
    && doc.candidates.Some? && |doc.candidates.value| > 0
    && var candidate := doc.candidates.value[0];
    && candidate.Some? && candidate.value.content.Some?
    && var parts := candidate.value.content.value.parts;
    && parts.Some? && |parts.value| > 0 && parts.value[0].Some?
    && parts.value[0].value.text == Some(t)
  }

  /** `result?.Candidates?[0]?.Content?.Parts?[0]?.Text ?? string.Empty`: the
      indexer throws on a present but empty list; otherwise the first part's
      text when every link is there, and "" when a link or the text is `null`. */
  function FirstCandidateText(doc: GeminiApiResponse): (r: TextSearch)
    ensures r.SearchFaulted? <==> IndexesAnEmptyList(doc)
    ensures r.SearchFaulted? ==> r.error == ArgumentOutOfRange
    ensures forall t :: FirstPartTextIs(doc, t) ==> r == FoundText(Some(t))
    ensures !IndexesAnEmptyList(doc) && (forall t :: !FirstPartTextIs(doc, t)) ==> r == FoundText(Some(""))
  {
    match doc.candidates
    case None => FoundText(Some(""))
    case Some(cs) =>
      if |cs| == 0 then SearchFaulted(ArgumentOutOfRange)
      else
        match cs[0]
        case None => FoundText(Some(""))
        case Some(c) =>
          match c.content
          case None => FoundText(Some(""))
          case Some(content) =>
            match content.parts
            case None => FoundText(Some(""))
            case Some(ps) =>
              if |ps| == 0 then SearchFaulted(ArgumentOutOfRange)
              else
                match ps[0]
                case None => FoundText(Some(""))
                case Some(p) =>
                  if p.text.Some? then
                    assert FirstPartTextIs(doc, p.text.value);
                    FoundText(p.text)
                  else FoundText(Some(""))
  }

  /** The response `GenerateTextAsync` builds: every exception, the one
      `EnsureSuccessStatusCode` throws included, becomes a failure carrying its
      message. */
  function TextResponse(outcome: HttpOutcome, read: ApiReader): (r: GeminiResponse)
    ensures r.isSuccess <==> r.error.None?
    ensures r.isSuccess ==> r.content.Some? && r.metadata == map[]
    ensures outcome.Raised? ==> r == Refused(outcome.error.Message())
    ensures outcome.Responded? && !IsSuccessStatusCode(outcome.response.statusCode) ==>
      && !r.isSuccess
      && r.error == Some(EnsureSuccessMessage(outcome.response))
      && NotSuccessPrefix <= r.error.value
    ensures outcome.Responded? && IsSuccessStatusCode(outcome.response.statusCode) ==>
      match read(outcome.response.body)
      case ReadFailed(e) => r == Refused(e.Message())
      case ReadNull => r == GeminiResponse(true, Some(""), None, map[])
      case ReadDoc(doc) =>
        match FirstCandidateText(doc)
        case SearchFaulted(e) => r == Refused(e.Message())
        case FoundText(text) => r == GeminiResponse(true, text, None, map[])
  {
    match outcome
    case Raised(e) => Refused(e.Message())
    case Responded(response) =>
      match EnsureSuccessStatusCode(response)
      case Some(e) => Refused(e.Message())
      case None =>
        match read(response.body)
        case ReadFailed(e) => Refused(e.Message())
        case ReadNull => GeminiResponse(true, Some(""), None, map[])
        case ReadDoc(doc) =>
          match FirstCandidateText(doc)
          case SearchFaulted(e) => Refused(e.Message())
          case FoundText(text) => GeminiResponse(true, text, None, map[])
  }

  /** A 2xx reply whose candidate list is empty: `AnalyzeImagesAsync` reports
      "No response from Gemini API", while `GenerateTextAsync` reports the
      message of the `ArgumentOutOfRangeException` its indexer throws. */
  lemma EmptyCandidatesDiverge(model: string, response: HttpResponse, read: ApiReader)
    requires IsSuccessStatusCode(response.statusCode)
    requires read(response.body) == ReadDoc(GeminiApiResponse(Some([])))
    ensures ImagesResponse(model, Responded(response), read) == Refused(NoResponse)
    ensures TextResponse(Responded(response), read) == Refused(ArgumentOutOfRange.Message())
  {
  }

  /** A 2xx document: the response is the index error's message when a list
      in the chain is present but empty, the first part's text when every link
      is there, and "" otherwise. */
  lemma TextReplyReadsTheFirstPart(response: HttpResponse, read: ApiReader, doc: GeminiApiResponse)
    requires IsSuccessStatusCode(response.statusCode)
    requires read(response.body) == ReadDoc(doc)
    ensures var r := TextResponse(Responded(response), read);
      && (IndexesAnEmptyList(doc) ==> r == Refused(ArgumentOutOfRange.Message()))
      && (forall t :: FirstPartTextIs(doc, t) ==> r == GeminiResponse(true, Some(t), None, map[]))
      && (!IndexesAnEmptyList(doc) && (forall t :: !FirstPartTextIs(doc, t)) ==>
            r == GeminiResponse(true, Some(""), None, map[]))
  {
  }

  // ---------------------------------------------------------------- service

  class GeminiService {
    const config: GeminiConfiguration
    const resiliencePolicy: seq<PolicyLayer>
    const transport: Transport
    const read: ApiReader

    /** The stored policy is the one built from the stored configuration. */
    predicate Valid() {
      BuildResiliencePolicy(config) == Some(resiliencePolicy)
    }

    /** The configuration must be one the policy builders accept; `HttpClient`
        setup (base address, key header, timeout) is not modelled. */
    constructor (config: GeminiConfiguration, transport: Transport, read: ApiReader)
      requires BuildResiliencePolicy(config).Some?
      ensures Valid()
      ensures this.config == config && resiliencePolicy == BuildResiliencePolicy(config).value
      ensures this.transport == transport && this.read == read
    {
      this.config := config;
      resiliencePolicy := BuildResiliencePolicy(config).value;
      this.transport := transport;
      this.read := read;
    }

    /** `BuildMultiModalRequest`: the prompt part, then one JPEG part per image
        in order, then the WAV part if there is audio. */
    method BuildMultiModalRequest(images: Option<seq<Bytes>>, audioData: Option<Bytes>, prompt: string)
      returns (request: WireRequest)
      ensures MultiModalLayout(request.parts, prompt, images.GetOr([]), audioData)
      ensures request.role == "user"
      ensures request.generationConfig == MultiModalGeneration && request.safetySettings == MedicalSafety
      ensures request == MultiModalRequest(images, audioData, prompt)
    {
      var parts := [TextPart(prompt)];
      if images.Some? {
        var imgs := images.value;
        for i := 0 to |imgs|
          invariant |parts| == 1 + i
          invariant parts[0] == TextPart(prompt)
          invariant forall j :: 0 <= j < i ==> parts[1 + j] == JpegPart(imgs[j])
        {
          parts := parts + [InlineDataPart(JpegMime, imgs[i])];
        }
      }
      if audioData.Some? {
        parts := parts + [InlineDataPart(WavMime, audioData.value)];
      }
      request := WireRequest("user", parts, MultiModalGeneration, MedicalSafety);
      LayoutDetermines(parts, MultiModalRequest(images, audioData, prompt).parts, prompt, images.GetOr([]), audioData);
    }

    /** `AnalyzeImagesAsync`. */
    method AnalyzeImagesAsync(images: seq<Bytes>, prompt: string) returns (r: GeminiResponse)
      requires Valid()
      ensures r == ImagesResponse(config.model,
                                  Send(config.model, resiliencePolicy[0], transport, MultiModalRequest(Some(images), None, prompt)),
                                  read)
    {
      var request := BuildMultiModalRequest(Some(images), None, prompt);
      var response := Send(config.model, resiliencePolicy[0], transport, request);
      r := ImagesResponse(config.model, response, read);
    }

    /** `AnalyzeAudioAsync`: builds the audio request, discards it, and
        analyses an empty image list with the same prompt. */
    method AnalyzeAudioAsync(audioData: Bytes, languageCode: string, prompt: string) returns (r: GeminiResponse)
      requires Valid()
      ensures r == ImagesResponse(config.model,
                                  Send(config.model, resiliencePolicy[0], transport, MultiModalRequest(Some([]), None, prompt)),
                                  read)
    {
      var _ := BuildMultiModalRequest(None, Some(audioData), prompt);
      r := AnalyzeImagesAsync([], prompt);
    }

    /** `GenerateTextAsync`. */
    method GenerateTextAsync(prompt: string) returns (r: GeminiResponse)
      requires Valid()
      ensures r == TextResponse(Send(config.model, resiliencePolicy[0], transport, TextRequest(prompt)), read)
    {
      var response := Send(config.model, resiliencePolicy[0], transport, TextRequest(prompt));
      r := TextResponse(response, read);
    }
  }
}
