/** The four stage agents. Each builds a prompt from its request, asks the
    model once, passes the reply through a parse-or-fallback rule and always
    reports success with a fixed message. The model (the kernel's
    `InvokePromptAsync`) and the JSON parser are parameters; a prompt is
    modelled by the values interpolated into its template, not its wording. */
module StageAgents {
  import opened Runtime
  import opened DomainModel
  import opened Text
  import opened AgentBase

  datatype Prompt =
    | ImageAnalysisPrompt(imageCount: nat, imageTypes: string)
    | AudioScribePrompt(languageCode: string, durationSeconds: int, transcribedText: string)
    | DiagnosticPrompt(patient: PatientInfo, country: string, region: string, endemicDiseases: string,
                       facilityLevel: string, imageFindings: Payload, audioFindings: Payload)
    | TreatmentPrompt(diagnosis: Payload, medications: string, facility: string, primaryLanguage: string)

  /** What awaiting the model gives: its text, or the exception it raised. */
  datatype ModelReply = Replied(text: string) | Raised(error: Exception)

  type Kernel = Prompt -> ModelReply

  const NotYetTranscribed := "[Not yet transcribed]"
  const AudioAnalyzed := "Audio analyzed successfully"
  const DiagnosisGenerated := "Differential diagnosis generated"
  const TreatmentCreated := "Treatment protocol created"
  const DiagnosisParseError := "Failed to parse diagnosis"
  const TreatmentParseError := "Failed to parse treatment"
  const ReasoningApproach := "Chain-of-Thought"

  /** The shared parse rule: a document becomes the result, a JSON `null`
      becomes an empty object, and a parse exception becomes `fallback`. */
  function ParseOr(text: string, parse: JsonParser, fallback: Payload): (r: Payload)
    requires fallback != Null
    ensures r != Null
    ensures parse(text).Parsed? ==> r == Json(parse(text).doc)
    ensures parse(text).ParsedNull? ==> r == EmptyObject
    ensures parse(text).ParseFailed? ==> r == fallback
  {
    match parse(text)
    case Parsed(doc) => Json(doc)
    case ParsedNull => EmptyObject
    case ParseFailed(_) => fallback
  }

  // ---------------------------------------------------------------- images

  function ImageTypeNames(images: seq<MedicalImage>): (names: seq<string>)
    ensures |names| == |images|
    ensures forall i :: 0 <= i < |images| ==> names[i] == ImageTypeName(images[i].imageType)
  {
    seq(|images|, i requires 0 <= i < |images| => ImageTypeName(images[i].imageType))
  }

  /** The prompt carries the image count and the image types joined by ", "
      in collection order. */
  function ImagePromptFor(images: seq<MedicalImage>): (r: Prompt)
    ensures r.ImageAnalysisPrompt? && r.imageCount == |images|
    ensures |images| > 0 ==> ImageTypeName(images[0].imageType) <= r.imageTypes
    ensures |images| > 0 ==>
      var last := ImageTypeName(images[|images| - 1].imageType);
      |last| <= |r.imageTypes| && r.imageTypes[|r.imageTypes| - |last|..] == last
  {
    JoinEndsWithTheLast(", ", ImageTypeNames(images));
    ImageAnalysisPrompt(|images|, Join(", ", ImageTypeNames(images)))
  }

  function AnalyzedMessage(n: nat): string {
    "Analyzed " + NatToString(n) + " images"
  }

  /** The message names the count exactly: different counts give different messages. */
  lemma {:induction false} AnalyzedMessageNamesTheCount(m: nat, n: nat)
    requires AnalyzedMessage(m) == AnalyzedMessage(n)
    ensures m == n
  {
    var a, b := AnalyzedMessage(m), AnalyzedMessage(n);
    var prefix, suffix := "Analyzed ", " images";
    assert |NatToString(m)| == |NatToString(n)|;
    assert NatToString(m) == a[|prefix|..|a| - |suffix|];
    assert NatToString(n) == b[|prefix|..|b| - |suffix|];
    NatToStringInjective(m, n);
  }

  function ParseImageFindings(response: string, parse: JsonParser): (r: Payload)
    ensures r != Null
    ensures parse(response).ParseFailed? ==> r == RawTextFallback(response)
  {
    ParseOr(response, parse, RawTextFallback(response))
  }

  /** `ImageAnalysisAgent.ExecuteAsync`. */
  function ImageAnalysis(request: AgentRequest, kernel: Kernel, parse: JsonParser): (r: StageOutcome)
    ensures !request.parameters.ImagesParameter? ==> r == Threw(MissingKey("images"))
    ensures request.parameters.ImagesParameter? ==>
      var images := request.parameters.images;
      match kernel(ImagePromptFor(images))
      case Raised(e) => r == Threw(e)
      case Replied(raw) =>
        && r.Returned?
        && r.response.requestId == request.requestId
        && r.response.isSuccess
        && r.response.result == ParseImageFindings(raw, parse)
        && r.response.messages == [AnalyzedMessage(|images|)]
        && r.response.metadata == map["imageCount" := IntValue(|images|), "rawResponse" := TextValue(raw)]
  {
    if !request.parameters.ImagesParameter? then Threw(MissingKey("images"))
    else
      var images := request.parameters.images;
      match kernel(ImagePromptFor(images))
      case Raised(e) => Threw(e)
      case Replied(raw) =>
        Returned(AgentResponse(
          request.requestId,
          true,
          ParseImageFindings(raw, parse),
          [AnalyzedMessage(|images|)],
          map["imageCount" := IntValue(|images|), "rawResponse" := TextValue(raw)]))
  }

  // ----------------------------------------------------------------- audio

  /** `null` audio is dereferenced while the prompt is built, before the model
      is asked anything. */
  function AudioPromptFor(audio: Option<AudioSymptomDescription>): (r: Option<Prompt>)
    ensures r.None? <==> audio.None?
    ensures audio.Some? ==>
      && r.value.AudioScribePrompt?
      && r.value.languageCode == audio.value.languageCode
      && r.value.durationSeconds == audio.value.durationSeconds
      && (audio.value.transcribedText.None? ==> r.value.transcribedText == NotYetTranscribed)
      && (audio.value.transcribedText.Some? ==> r.value.transcribedText == audio.value.transcribedText.value)
  {
    match audio
    case None => None
    case Some(a) =>
      Some(AudioScribePrompt(a.languageCode, a.durationSeconds, a.transcribedText.GetOr(NotYetTranscribed)))
  }

  /** `AudioTranscriptionAgent.ExecuteAsync`: the result is the raw model text. */
  function AudioTranscription(request: AgentRequest, kernel: Kernel): (r: StageOutcome)
    ensures !request.parameters.AudioParameter? ==> r == Threw(MissingKey("audio"))
    ensures request.parameters == AudioParameter(None) ==> r == Threw(NullReference)
    ensures request.parameters.AudioParameter? && request.parameters.audio.Some? ==>
      var audio := request.parameters.audio.value;
      match kernel(AudioPromptFor(request.parameters.audio).value)
      case Raised(e) => r == Threw(e)
      case Replied(raw) =>
        && r.Returned?
        && r.response.requestId == request.requestId
        && r.response.isSuccess
        && r.response.result == Text(raw)
        && r.response.messages == [AudioAnalyzed]
        && r.response.metadata == map["language" := TextValue(audio.languageCode)]
  {
    if !request.parameters.AudioParameter? then Threw(MissingKey("audio"))
    else
      match AudioPromptFor(request.parameters.audio)
      case None => Threw(NullReference)
      case Some(prompt) =>
        match kernel(prompt)
        case Raised(e) => Threw(e)
        case Replied(raw) =>
          Returned(AgentResponse(
            request.requestId,
            true,
            Text(raw),
            [AudioAnalyzed],
            map["language" := TextValue(request.parameters.audio.value.languageCode)]))
  }

  // ------------------------------------------------------------- reasoning

  /** The prompt carries both earlier findings and the patient unchanged, the
      region, and the endemic diseases joined by ", " in order. */
  function DiagnosticPromptFor(imageFindings: Payload, audioFindings: Payload,
                               patient: PatientInfo, context: ContextualInformation): (r: Prompt)
    ensures r.DiagnosticPrompt?
    ensures r.imageFindings == imageFindings && r.audioFindings == audioFindings && r.patient == patient
    ensures r.country == context.region.country && r.region == context.region.region
    ensures |context.localEndemicDiseases| > 0 ==> context.localEndemicDiseases[0] <= r.endemicDiseases
  {
    DiagnosticPrompt(patient, context.region.country, context.region.region,
                     Join(", ", context.localEndemicDiseases), FacilityName(context.facilityLevel),
                     imageFindings, audioFindings)
  }

  function ParseDiagnosis(json: string, parse: JsonParser): (r: Payload)
    ensures r != Null
    ensures parse(json).ParseFailed? ==> r == ParseErrorFallback(DiagnosisParseError, json)
  {
    ParseOr(json, parse, ParseErrorFallback(DiagnosisParseError, json))
  }

  /** `MedicalReasoningAgent.ExecuteAsync`: the prompt carries both earlier findings. */
  function MedicalReasoning(request: AgentRequest, kernel: Kernel, parse: JsonParser): (r: StageOutcome)
    ensures !request.parameters.DiagnosisParameters? ==> r == Threw(MissingKey("imageFindings"))
    ensures request.parameters.DiagnosisParameters? ==>
      var p := request.parameters;
      var prompt := DiagnosticPromptFor(p.imageFindings, p.audioFindings, p.patient, p.context);
      && prompt.imageFindings == p.imageFindings
      && prompt.audioFindings == p.audioFindings
      && match kernel(prompt)
         case Raised(e) => r == Threw(e)
         case Replied(raw) =>
           && r.Returned?
           && r.response.requestId == request.requestId
           && r.response.isSuccess
           && r.response.result == ParseDiagnosis(raw, parse)
           && r.response.messages == [DiagnosisGenerated]
           && r.response.metadata == map["reasoningApproach" := TextValue(ReasoningApproach),
                                         "contextConsidered" := BoolValue(true)]
  {
    if !request.parameters.DiagnosisParameters? then Threw(MissingKey("imageFindings"))
    else
      var p := request.parameters;
      match kernel(DiagnosticPromptFor(p.imageFindings, p.audioFindings, p.patient, p.context))
      case Raised(e) => Threw(e)
      case Replied(raw) =>
        Returned(AgentResponse(
          request.requestId,
          true,
          ParseDiagnosis(raw, parse),
          [DiagnosisGenerated],
          map["reasoningApproach" := TextValue(ReasoningApproach), "contextConsidered" := BoolValue(true)]))
  }

  // ------------------------------------------------------------- treatment

  /** The prompt lists the available medications joined by ", " in order. */
  function TreatmentPromptFor(diagnosis: Payload, context: ContextualInformation): (r: Prompt)
    ensures r.TreatmentPrompt? && r.diagnosis == diagnosis
    ensures r.primaryLanguage == context.culturalContext.primaryLanguage
    ensures |context.availableMedications| > 0 ==> context.availableMedications[0] <= r.medications
    ensures var meds := context.availableMedications;
      |meds| > 0 ==>
        (|meds[|meds| - 1]| <= |r.medications| && r.medications[|r.medications| - |meds[|meds| - 1]|..] == meds[|meds| - 1])
  {
    JoinEndsWithTheLast(", ", context.availableMedications);
    TreatmentPrompt(diagnosis, Join(", ", context.availableMedications), FacilityName(context.facilityLevel),
                    context.culturalContext.primaryLanguage)
  }

  function ParseTreatment(json: string, parse: JsonParser): (r: Payload)
    ensures r != Null
    ensures parse(json).ParseFailed? ==> r == ParseErrorFallback(TreatmentParseError, json)
  {
    ParseOr(json, parse, ParseErrorFallback(TreatmentParseError, json))
  }

  /** `TreatmentPlannerAgent.ExecuteAsync`. */
  function TreatmentPlanning(request: AgentRequest, kernel: Kernel, parse: JsonParser): (r: StageOutcome)
    ensures !request.parameters.TreatmentParameters? ==> r == Threw(MissingKey("diagnosis"))
    ensures request.parameters.TreatmentParameters? ==>
      var p := request.parameters;
      match kernel(TreatmentPromptFor(p.diagnosis, p.context))
      case Raised(e) => r == Threw(e)
      case Replied(raw) =>
        && r.Returned?
        && r.response.requestId == request.requestId
        && r.response.isSuccess
        && r.response.result == ParseTreatment(raw, parse)
        && r.response.messages == [TreatmentCreated]
        && r.response.metadata == map["availableMedications" := IntValue(|p.context.availableMedications|),
                                      "facilityLevel" := TextValue(FacilityName(p.context.facilityLevel))]
  {
    if !request.parameters.TreatmentParameters? then Threw(MissingKey("diagnosis"))
    else
      var p := request.parameters;
      match kernel(TreatmentPromptFor(p.diagnosis, p.context))
      case Raised(e) => Threw(e)
      case Replied(raw) =>
        Returned(AgentResponse(
          request.requestId,
          true,
          ParseTreatment(raw, parse),
          [TreatmentCreated],
          map["availableMedications" := IntValue(|p.context.availableMedications|),
              "facilityLevel" := TextValue(FacilityName(p.context.facilityLevel))]))
  }

  // ------------------------------------------------------------ properties

  /** The prompt the agent sends for a request, if it gets as far as sending one. */
  function PromptSent(request: AgentRequest): Option<Prompt> {
    match request.parameters
    case ImagesParameter(images) => Some(ImagePromptFor(images))
    case AudioParameter(audio) => AudioPromptFor(audio)
    case DiagnosisParameters(i, a, p, c) => Some(DiagnosticPromptFor(i, a, p, c))
    case TreatmentParameters(d, c) => Some(TreatmentPromptFor(d, c))
    case CaseParameter(_) => None
  }

  /** The agent for the kind of request it expects. */
  function RunAgent(request: AgentRequest, kernel: Kernel, parse: JsonParser): StageOutcome {
    match request.parameters
    case ImagesParameter(_) => ImageAnalysis(request, kernel, parse)
    case AudioParameter(_) => AudioTranscription(request, kernel)
    case DiagnosisParameters(_, _, _, _) => MedicalReasoning(request, kernel, parse)
    case TreatmentParameters(_, _) => TreatmentPlanning(request, kernel, parse)
    case CaseParameter(_) => Threw(MissingKey("images"))
  }

  /** Each agent asks the model exactly one question: two kernels that give the
      same reply to that one prompt make the agent behave identically, and when
      no prompt is sent (null audio) the kernel is never consulted. */
  lemma AgentsAskOnce(request: AgentRequest, k1: Kernel, k2: Kernel, parse: JsonParser)
    requires PromptSent(request).Some? ==> k1(PromptSent(request).value) == k2(PromptSent(request).value)
    ensures RunAgent(request, k1, parse) == RunAgent(request, k2, parse)
  {
  }

  /** A stage that hears back from the model always reports success with one
      message, whatever the reply text: malformed output is never a failure. */
  lemma AgentsNeverReportFailure(request: AgentRequest, kernel: Kernel, parse: JsonParser)
    requires RunAgent(request, kernel, parse).Returned?
    ensures RunAgent(request, kernel, parse).response.isSuccess
    ensures |RunAgent(request, kernel, parse).response.messages| == 1
    ensures RunAgent(request, kernel, parse).response.result != Null
    ensures RunAgent(request, kernel, parse).response.requestId == request.requestId
  {
  }

  /** An agent throws only when the model raised (or, for audio, when there was
      no audio to describe). */
  lemma AgentsThrowOnlyWhenTheModelRaises(request: AgentRequest, kernel: Kernel, parse: JsonParser)
    requires !request.parameters.CaseParameter?
    ensures RunAgent(request, kernel, parse).Threw? <==>
      (PromptSent(request).None? || kernel(PromptSent(request).value).Raised?)
    ensures PromptSent(request).None? ==> RunAgent(request, kernel, parse) == Threw(NullReference)
  {
  }
}
