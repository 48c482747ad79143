# BioLens core, modelled in Dafny

BioLens assembles a diagnostic case (a patient, up to ten images, an optional
audio description of symptoms, and the local medical context). It then asks a
generative model for a differential diagnosis and a treatment protocol. This
project models the parts of that system that make decisions:

- **Case aggregate** (`CaseAggregate`, `PatientEntity`, `BaseTypes`): `DiagnosticCase` is a
  class with a bounded image list, a status, a diagnosis recorded all at once, and the
  append-only domain-event log its `Entity` base keeps. `Patient` has two append-only lists.
  `Result`, `Result<T>`, entity equality and value-object equality and hashing are modelled
  as functions with their laws proved.
- **Stage agents** (`StageAgents`): the image, audio, reasoning and treatment agents are pure
  functions. Their inputs are the request, the model (a function from prompt to reply or
  exception) and the JSON parser. Each builds one prompt, asks once, applies a
  parse-or-fallback rule and reports success.
- **Coordinator** (`Coordinator`): `Pipeline` specifies the four-stage workflow, with its
  trace, its data flow and its catch block. The class method `ExecuteAsync` builds the same
  response imperatively and is proved equal to it.
- **Command handlers** (`Handlers`): get-or-create the patient and create the case. Then
  start the case, run the coordinator, and either throw or complete and save. The
  repositories are map-valued fields.
- **Gemini clients** (`GeminiWire`, `GeminiService`, `GeminiAIService`):
  - the ordered request parts, built by a loop in one client and by concatenation in the
    other, and proved equal;
  - the retry and breaker predicates and the policy wrap order, held as data;
  - the backoff schedule and its total, and Polly's documented wait-and-retry contract
    over attempt outcomes;
  - the mapping from HTTP outcomes to responses or exceptions.

Clocks, fresh Guids, the model, the JSON readers and the HTTP transport are parameters.

Behaviour of the code that a reader might not expect, which the model follows:

- Rate-limited responses (429) are not retried. The retry layer handles only
  `HttpRequestException`, `TaskCanceledException` and statuses of 500 or more.
- A `TimeoutRejectedException` from the timeout layer is neither retried nor counted by the
  breaker.
- The breaker sits inside the retry layer. An open circuit's `BrokenCircuitException` is
  not retried and ends the run.
- The waits before retries are 2, 4, 8, … seconds (2^k for retry k). With `MaxRetries = 2`
  they total 6 seconds.
- `StartDiagnosis` has no guard. It moves any case, a resolved one included, back to
  `InProgress`, after which `CompleteDiagnosis` succeeds again.
- A case without audio is not skipped. The coordinator passes `null` to the audio agent,
  which dereferences it while building its prompt, so the run fails at its second stage.
- The coordinator never reads a stage's `IsSuccess`. A stage fails the run only by throwing.
- The diagnosis handler ignores the coordinator's result. It records a fixed sample
  diagnosis and protocol, and throws `InvalidOperationException` when the run fails.
- `GeminiService.cs` and `GeminiAIService.cs` declare `GeminiConfiguration`, `Candidate`,
  `Content` and `Part` in the same namespace. Each file is modelled with its own
  declarations, in its own module.
- On an empty candidate list, `GenerateTextAsync` indexes with `?[0]`, which throws, so it
  reports the `ArgumentOutOfRangeException` message. `AnalyzeImagesAsync` reports
  "No response from Gemini API" instead (`EmptyCandidatesDiverge`).

## Model

| member | source | states |
|---|---|---|
| Runtime.MissingKey | src/BioLens.Agents/Core/ImageAnalysisAgent.cs:21 | reading an absent parameter key raises `KeyNotFoundException` |
| Text.NatToString | src/BioLens.Agents/Core/ImageAnalysisAgent.cs:32 | a count renders as a non-empty digit string without leading zeros |
| Text.DecimalRoundTrip | src/BioLens.Agents/Core/ImageAnalysisAgent.cs:32 | the rendered count reads back as the same number |
| Text.NatToStringInjective | src/BioLens.Agents/Core/ImageAnalysisAgent.cs:32 | distinct counts render differently |
| Text.Join | src/BioLens.Application/Handlers/CommandHandlers.cs:80 | `string.Join` of no elements is empty, and a non-empty join starts with the first element |
| Text.JoinAppend | src/BioLens.Application/Handlers/CommandHandlers.cs:80 | `string.Join` lists the elements in collection order: one more element adds the separator and that element at the end |
| Text.JoinLength | src/BioLens.Application/Handlers/CommandHandlers.cs:80 | the joined text is the elements plus one separator between each neighbouring pair |
| Text.JoinEndsWithTheLast | src/BioLens.Application/Handlers/CommandHandlers.cs:80 | a non-empty join ends with the last element |
| BaseTypes.Success | src/BioLens.Domain/Common/BaseTypes.cs:83 | success carries an empty error and is not a failure |
| BaseTypes.Failure | src/BioLens.Domain/Common/BaseTypes.cs:84 | failure carries the given error and is a failure |
| BaseTypes.FailureIsNotSuccess | src/BioLens.Domain/Common/BaseTypes.cs:74 | `IsFailure` holds exactly when `IsSuccess` does not |
| BaseTypes.SuccessWith | src/BioLens.Domain/Common/BaseTypes.cs:85 | a valued success holds the value and an empty error |
| BaseTypes.FailureOf | src/BioLens.Domain/Common/BaseTypes.cs:86 | a valued failure holds no value and the given error |
| BaseTypes.EntityEqualsIff | src/BioLens.Domain/Common/BaseTypes.cs:17-18 | two entities are equal exactly when runtime type and Id agree |
| BaseTypes.EntityEqualsIsAnEquivalence | src/BioLens.Domain/Common/BaseTypes.cs:17-18 | entity equality is reflexive, symmetric and transitive, and nothing equals null |
| BaseTypes.EqualEntitiesHashAlike | src/BioLens.Domain/Common/BaseTypes.cs:17-20 | equal entities have equal hash codes |
| BaseTypes.SequenceEqual | src/BioLens.Domain/Common/BaseTypes.cs:59 | element-wise comparison holds exactly when the sequences are equal |
| BaseTypes.ValueObjectEqualsIff | src/BioLens.Domain/Common/BaseTypes.cs:53-60 | value objects are equal exactly when type and all components agree |
| BaseTypes.ComponentHashes | src/BioLens.Domain/Common/BaseTypes.cs:63-64 | one hash per equality component, in order, 0 for a null component |
| BaseTypes.ValueObjectHash | src/BioLens.Domain/Common/BaseTypes.cs:62-65 | the hash exists exactly when there is at least one component (`Aggregate` throws otherwise), and is then the XOR of the component hashes |
| BaseTypes.EqualValueObjectsHashAlike | src/BioLens.Domain/Common/BaseTypes.cs:53-65 | equal value objects have equal hash codes |
| PatientEntity.Patient.constructor | src/BioLens.Domain/Entities/Patient.cs:14-26 | a new patient holds the given data, a fresh id and empty history and allergies |
| PatientEntity.Patient.AddMedicalCondition | src/BioLens.Domain/Entities/Patient.cs:37 | appends to the history and leaves the allergies alone |
| PatientEntity.Patient.AddAllergy | src/BioLens.Domain/Entities/Patient.cs:38 | appends to the allergies and leaves the history alone |
| PatientEntity.AddConditionTwice | src/BioLens.Domain/Entities/Patient.cs:37 | adding a condition twice records it twice: no de-duplication |
| CaseAggregate.DiagnosticCase.constructor | src/BioLens.Domain/Entities/DiagnosticCase.cs:15-29 | a new case is `Created`, unsynced, without images, audio or diagnosis, and holds exactly the one creation event |
| CaseAggregate.DiagnosticCase.AddDomainEvent | src/BioLens.Domain/Common/BaseTypes.cs:14 | appends the event at the end, earlier events untouched |
| CaseAggregate.DiagnosticCase.ClearDomainEvents | src/BioLens.Domain/Common/BaseTypes.cs:15 | leaves the event list empty |
| CaseAggregate.DiagnosticCase.AddMedicalImage | src/BioLens.Domain/Entities/DiagnosticCase.cs:47-55 | below ten images, appends the image and one event and succeeds; at ten, fails with "Maximum 10 images per case" and changes nothing; the count never exceeds ten |
| CaseAggregate.DiagnosticCase.SetAudioDescription | src/BioLens.Domain/Entities/DiagnosticCase.cs:57-62 | always succeeds, replaces the audio, appends one event |
| CaseAggregate.DiagnosticCase.CompleteDiagnosis | src/BioLens.Domain/Entities/DiagnosticCase.cs:64-81 | from `Created`/`InProgress`, sets primary, alternatives, protocol, completion time and status together and appends one event; from any other status fails with "Case must be in progress" and changes nothing |
| CaseAggregate.DiagnosticCase.StartDiagnosis | src/BioLens.Domain/Entities/DiagnosticCase.cs:83-86 | moves to `InProgress` from every status |
| CaseAggregate.DiagnosticCase.MarkAsSynced | src/BioLens.Domain/Entities/DiagnosticCase.cs:88-91 | sets the sync flag and nothing else |
| CaseAggregate.EleventhImageIsRefused | src/BioLens.Domain/Entities/DiagnosticCase.cs:49-50 | with ten images the next one is refused and the count stays ten |
| CaseAggregate.CompletingAResolvedCaseFails | src/BioLens.Domain/Entities/DiagnosticCase.cs:69-70 | a resolved case cannot be completed and keeps its diagnosis |
| CaseAggregate.RestartThenComplete | src/BioLens.Domain/Entities/DiagnosticCase.cs:83-86 | starting first makes completion succeed from any status |
| StageAgents.ParseOr | src/BioLens.Agents/Core/ImageAnalysisAgent.cs:73-83 | a parsed document is the result, JSON `null` an empty object, a parse exception the fallback; never null |
| StageAgents.ImageTypeNames | src/BioLens.Agents/Core/ImageAnalysisAgent.cs:52 | one type name per image, in collection order |
| StageAgents.ImagePromptFor | src/BioLens.Agents/Core/ImageAnalysisAgent.cs:40-70 | the image prompt carries the image count, and its type list starts with the first image's type and ends with the last's |
| StageAgents.AnalyzedMessageNamesTheCount | src/BioLens.Agents/Core/ImageAnalysisAgent.cs:32 | the "Analyzed N images" message determines N |
| StageAgents.ParseImageFindings | src/BioLens.Agents/Core/ImageAnalysisAgent.cs:73-83 | unparsable output becomes `{ rawText = response }` |
| StageAgents.ImageAnalysis | src/BioLens.Agents/Core/ImageAnalysisAgent.cs:17-38 | without images throws `KeyNotFoundException`; a model exception propagates; otherwise succeeds with the parsed findings, the count message and metadata |
| StageAgents.AudioPromptFor | src/BioLens.Agents/Core/AudioTranscriptionAgent.cs:20-28 | null audio gives no prompt; otherwise language, duration and the transcript or "[Not yet transcribed]" |
| StageAgents.AudioTranscription | src/BioLens.Agents/Core/AudioTranscriptionAgent.cs:16-59 | null audio throws `NullReferenceException` before the model is asked; otherwise the raw reply, one message and the language |
| StageAgents.DiagnosticPromptFor | src/BioLens.Agents/Core/MedicalReasoningAgent.cs:46-105 | the reasoning prompt carries both earlier findings and the patient unchanged, the country and region, and the endemic diseases starting with the first |
| StageAgents.ParseDiagnosis | src/BioLens.Agents/Core/MedicalReasoningAgent.cs:107-117 | unparsable output becomes `{ error = "Failed to parse diagnosis", raw }` |
| StageAgents.MedicalReasoning | src/BioLens.Agents/Core/MedicalReasoningAgent.cs:20-43 | the prompt carries both findings, the patient and the context; success with the parsed diagnosis and fixed metadata |
| StageAgents.TreatmentPromptFor | src/BioLens.Agents/Core/TreatmentPlannerAgent.cs:41-98 | the treatment prompt carries the diagnosis and the primary language unchanged, and the medication list starts with the first medication and ends with the last |
| StageAgents.ParseTreatment | src/BioLens.Agents/Core/TreatmentPlannerAgent.cs:99-109 | unparsable output becomes `{ error = "Failed to parse treatment", raw }` |
| StageAgents.TreatmentPlanning | src/BioLens.Agents/Core/TreatmentPlannerAgent.cs:17-39 | success with the parsed treatment, the medication count and the facility name |
| StageAgents.AgentsAskOnce | src/BioLens.Agents/Core/ImageAnalysisAgent.cs:23-24 | an agent's behaviour depends on the model only through its one prompt; null audio never consults it |
| StageAgents.AgentsNeverReportFailure | src/BioLens.Agents/Core/ImageAnalysisAgent.cs:28-37 | every returned response is a success with one message, a non-null result and the request's id |
| StageAgents.AgentsThrowOnlyWhenTheModelRaises | src/BioLens.Agents/Core/AudioTranscriptionAgent.cs:20-51 | an agent throws exactly when no prompt could be built (null audio) or the model raised |
| Coordinator.Pipeline | src/BioLens.Agents/Core/DiagnosticCoordinatorAgent.cs:39-117 | the image stage is always asked first and at most four stages are asked; the response keeps the request id; it succeeds exactly when all four stages were asked and the treatment stage returned |
| Coordinator.CatchBlock | src/BioLens.Agents/Core/DiagnosticCoordinatorAgent.cs:108-117 | the failure response: not a success, null result, the messages so far plus the error line |
| Coordinator.DiagnosticCoordinatorAgent.constructor | src/BioLens.Agents/Core/DiagnosticCoordinatorAgent.cs:18-30 | the coordinator holds the four stage agents, all built over the same model and parser |
| Coordinator.DiagnosticCoordinatorAgent.ExecuteAsync | src/BioLens.Agents/Core/DiagnosticCoordinatorAgent.cs:32-118 | without a case throws before the `try`; otherwise returns exactly the `Pipeline` response, never an exception |
| Coordinator.IssuedBetweenOneAndFour | src/BioLens.Agents/Core/DiagnosticCoordinatorAgent.cs:41-89 | a run asks between one and four stages |
| Coordinator.SubRequestsInStageOrder | src/BioLens.Agents/Core/DiagnosticCoordinatorAgent.cs:43-89 | sub-requests go out in stage order with their request types, the outer id and context |
| Coordinator.SucceedsIffEveryStageReturns | src/BioLens.Agents/Core/DiagnosticCoordinatorAgent.cs:39-117 | success exactly when all four stages return, whatever their `IsSuccess`; otherwise the last stage asked threw and all earlier ones returned |
| Coordinator.TraceShape | src/BioLens.Agents/Core/DiagnosticCoordinatorAgent.cs:42-116 | success records the four progress lines and the completion line; failure the progress lines of the stages started and the error line |
| Coordinator.ResultsFlowForward | src/BioLens.Agents/Core/DiagnosticCoordinatorAgent.cs:63-100 | reasoning gets the image and audio results, treatment the reasoning result, and the final result pairs diagnosis and treatment |
| Coordinator.MissingAudioFailsAtAudioStage | src/BioLens.Agents/Core/DiagnosticCoordinatorAgent.cs:52-59 | with the real agents a case without audio fails at step two with the null-reference error |
| Coordinator.AnsweringModelCompletesTheWorkflow | src/BioLens.Agents/Core/DiagnosticCoordinatorAgent.cs:39-106 | with the real agents, audio present and a model that always answers, the run succeeds |
| Handlers.PatientRepository.GetByAnonymizedId | src/BioLens.Domain/Repositories/IRepositories.cs:15 | finds the stored patient with that anonymised id, or none |
| Handlers.PatientRepository.Add | src/BioLens.Domain/Repositories/IRepositories.cs:16 | stores the patient under its anonymised id and returns its id |
| Handlers.CaseRepository.GetById | src/BioLens.Domain/Repositories/IRepositories.cs:7 | finds the stored case with that id, or none |
| Handlers.CaseRepository.Add | src/BioLens.Domain/Repositories/IRepositories.cs:8 | stores the case under its id and returns it |
| Handlers.CaseRepository.Update | src/BioLens.Domain/Repositories/IRepositories.cs:9 | records one save of the case |
| Handlers.CreateDiagnosticCaseHandler.Handle | src/BioLens.Application/Handlers/CommandHandlers.cs:23-46 | reuses the stored patient or creates and stores one; stores one new `Created` case attached to it and returns its id; the new case is unsynced, has no diagnosis, and holds exactly its creation event |
| Handlers.RequestDiagnosisHandler.Handle | src/BioLens.Application/Handlers/CommandHandlers.cs:62-113 | unknown case throws "Case … not found"; a failed run throws "Diagnosis failed: …", leaving the case `InProgress`, its diagnosis fields and events as they were, and unsaved; a successful run completes the case with the sample diagnosis, saves once, and returns the run's messages as reasoning steps; images, audio and the sync flag never change |
| Handlers.DiagnosisFailedMessage | src/BioLens.Application/Handlers/CommandHandlers.cs:80 | the failure text starts with "Diagnosis failed: " and ends with the run's last message; with no messages it is that prefix alone |
| Handlers.FailureMessageEndsWithTheError | src/BioLens.Application/Handlers/CommandHandlers.cs:79-80 | the failure text lists the progress lines of the stages started and ends with the stage's error line |
| GeminiWire.EnsureSuccessMessage | src/BioLens.Infrastructure/AI/GeminiAIService.cs:48 | the thrown message starts "Response status code does not indicate success: " |
| GeminiWire.EnsureSuccessStatusCode | src/BioLens.Infrastructure/AI/GeminiAIService.cs:48 | throws an `HttpRequestException` exactly for a non-2xx status |
| GeminiWire.ImageParts | src/BioLens.Infrastructure/AI/GeminiService.cs:242-252 | one JPEG part per image, in order |
| GeminiWire.LayoutDetermines | src/BioLens.Infrastructure/AI/GeminiService.cs:237-266 | the part layout fixes the parts completely |
| GeminiWire.AudioPartIsLastIffAudio | src/BioLens.Infrastructure/AI/GeminiService.cs:255-266 | the last part is a WAV part exactly when audio is present, and no other part is |
| GeminiService.BuildResiliencePolicy | src/BioLens.Infrastructure/AI/GeminiService.cs:47-86 | retry outermost, then the breaker (3 events, 60 s), then the per-attempt timeout; rejected configurations give none |
| GeminiService.RetryHandlesExactly | src/BioLens.Infrastructure/AI/GeminiService.cs:50-53 | retried: `HttpRequestException`, `TaskCanceledException`, status ≥ 500, and nothing else |
| GeminiService.BreakerCountsExactly | src/BioLens.Infrastructure/AI/GeminiService.cs:67-69 | counted: `HttpRequestException`, status ≥ 500 only; everything counted is also retried |
| GeminiService.UnhandledOutcomes | src/BioLens.Infrastructure/AI/GeminiService.cs:50-69 | statuses below 500 (429 included), timeout rejections and open-circuit rejections are neither retried nor counted |
| GeminiService.BuiltBreakerWithinRetry | src/BioLens.Infrastructure/AI/GeminiService.cs:50-85 | in the built policy the breaker counts only what the retry layer retries |
| GeminiService.BackoffSchedule | src/BioLens.Infrastructure/AI/GeminiService.cs:56 | the wait before retry k is 2^k seconds |
| GeminiService.TotalBackoff | src/BioLens.Infrastructure/AI/GeminiService.cs:56 | n retries wait 2^(n+1) - 2 seconds in total |
| GeminiService.RetryFrom | src/BioLens.Infrastructure/AI/GeminiService.cs:54-56 | at most retryCount + 1 attempts; every retried attempt was handled; the run ends on an unhandled outcome or the last allowed attempt; waits follow the schedule |
| GeminiService.RetryRunBounds | src/BioLens.Infrastructure/AI/GeminiService.cs:54-56 | a run waits exactly the schedule prefix for its retries, at most 2^(retryCount+1) - 2 seconds; an unhandled first outcome is returned at once |
| GeminiService.Send | src/BioLens.Infrastructure/AI/GeminiService.cs:97-102 | the reply is the outcome of some attempt from 0 to the retry count; an outcome the retry does not handle on the first attempt is returned as it is (the same call is at lines 201-206) |
| GeminiService.DefaultRetryBounds | src/BioLens.Infrastructure/AI/GeminiService.cs:16 | with the default of three retries: at most four attempts and 14 seconds of waiting |
| GeminiService.MultiModalRequest | src/BioLens.Infrastructure/AI/GeminiService.cs:232-295 | prompt first, one JPEG part per image in order, a WAV part last exactly when audio is present |
| GeminiService.AudioRequestCarriesOnlyThePrompt | src/BioLens.Infrastructure/AI/GeminiService.cs:170-173 | the request audio analysis actually sends holds the prompt alone |
| GeminiService.TextRequest | src/BioLens.Infrastructure/AI/GeminiService.cs:180-197 | the text request holds the prompt part alone, with no response MIME type and no safety settings |
| GeminiService.FirstNonNullText | src/BioLens.Infrastructure/AI/GeminiService.cs:128-131 | the first part with text, none when every part is textless, or a null-reference fault on reaching a null part first |
| GeminiService.AnalyzeImagesCatch | src/BioLens.Infrastructure/AI/GeminiService.cs:144-161 | an open circuit gives "Service temporarily unavailable…"; any other exception "Unexpected error: " and its message |
| GeminiService.ImagesResponse | src/BioLens.Infrastructure/AI/GeminiService.cs:93-161 | non-2xx gives "API returned …"; a null or empty candidate list "No response from Gemini API"; a null candidate or content the null-reference text, null parts the null-argument text; a 2xx document whose first candidate's search finds a text (or none) is a success carrying it (or "") with the model and finish reason, and only such a document is |
| GeminiService.FirstTextIsUnique | src/BioLens.Infrastructure/AI/GeminiService.cs:128-131 | a part with text preceded only by present, textless parts is the one the search returns |
| GeminiService.FirstNullIsUnique | src/BioLens.Infrastructure/AI/GeminiService.cs:128-131 | a null part preceded only by present, textless parts makes the search throw a null reference |
| GeminiService.ImagesReplyReadsTheFirstText | src/BioLens.Infrastructure/AI/GeminiService.cs:116-142 | for a 2xx reply with a first candidate, content and parts: the response carries the first text that follows only textless parts, "" when all are textless, and the null-reference failure when a null part comes first |
| GeminiService.ImagesFailureKinds | src/BioLens.Infrastructure/AI/GeminiService.cs:104-161 | every failure is one of the four error texts: the method never throws |
| GeminiService.FirstCandidateText | src/BioLens.Infrastructure/AI/GeminiService.cs:213 | throws the index error exactly when the candidate list or the first candidate's part list is present but empty; otherwise the first part's text when every link is present, "" when a link or the text is null |
| GeminiService.TextResponse | src/BioLens.Infrastructure/AI/GeminiService.cs:199-229 | every exception, a non-success status, a reader failure and an index error included, becomes a failure with its message; a 2xx reply otherwise succeeds with the extracted text ("" for a null document) and no metadata |
| GeminiService.TextReplyReadsTheFirstPart | src/BioLens.Infrastructure/AI/GeminiService.cs:210-219 | for a 2xx document: the index error's message when a list in the chain is present but empty, success with the first part's text when every link is present, success with "" otherwise |
| GeminiService.EmptyCandidatesDiverge | src/BioLens.Infrastructure/AI/GeminiService.cs:119-126 | an empty candidate list is "No response" for image analysis but an index error for text generation |
| GeminiService.GeminiService.constructor | src/BioLens.Infrastructure/AI/GeminiService.cs:27-38 | the service holds the configuration and the policy built from it |
| GeminiService.GeminiService.BuildMultiModalRequest | src/BioLens.Infrastructure/AI/GeminiService.cs:232-295 | the loop assembles the required layout, with `topK` 40, 2048 tokens, JSON output and the medical safety setting |
| GeminiService.GeminiService.AnalyzeImagesAsync | src/BioLens.Infrastructure/AI/GeminiService.cs:88-162 | sends the image request through the stored policy's outer retry layer and returns `ImagesResponse` of the final outcome |
| GeminiService.GeminiService.AnalyzeAudioAsync | src/BioLens.Infrastructure/AI/GeminiService.cs:164-174 | discards the audio request and analyses an empty image list with the same prompt |
| GeminiService.GeminiService.GenerateTextAsync | src/BioLens.Infrastructure/AI/GeminiService.cs:176-230 | sends the prompt-only request through the stored policy's outer retry layer and returns `TextResponse` of the final outcome |
| GeminiAIService.RequestUri | src/BioLens.Infrastructure/AI/GeminiAIService.cs:44 | the address is the fixed model address followed by the API key; the configured base address plays no part |
| GeminiAIService.BuildRequest | src/BioLens.Infrastructure/AI/GeminiAIService.cs:62-105 | prompt first, one JPEG part per image in order, a WAV part last exactly when audio is present; 4096 tokens |
| GeminiAIService.BothClientsSendTheSameParts | src/BioLens.Infrastructure/AI/GeminiAIService.cs:62-88 | both clients assemble identical part lists; only the token limit and the safety settings differ |
| GeminiAIService.FirstOrNull | src/BioLens.Infrastructure/AI/GeminiAIService.cs:53 | the first element (itself possibly null), or null for a null or empty list |
| GeminiAIService.ExtractText | src/BioLens.Infrastructure/AI/GeminiAIService.cs:53 | the first candidate's first part text when every link is present, otherwise "" |
| GeminiAIService.GenerateContent | src/BioLens.Infrastructure/AI/GeminiAIService.cs:33-60 | transport, status and reader failures propagate unchanged; otherwise the extracted text |

## Left out

- Async, cancellation tokens and logging: each awaited call is a function application.
- Floating point: latitude and longitude, `temperature`, `topP`, `Math.Pow`. The backoff uses a natural-number power.
- `DateTimeOffset.UtcNow` and `Guid.NewGuid()` are parameters. Domain events do not carry their own `EventId` and `OccurredAt`.
- `Patient` inherits an event list it never uses; that list is not modelled.
- Prompt wording: a prompt is the record of the values interpolated into it. JSON serialising and parsing, the model call, and base64 encoding are uninterpreted functions.
- Polly's circuit-breaker and timeout engines (open/half-open timing, real sleeps): the breaker and timeout appear only as the exceptions an attempt may end with. The retry layer is modelled by Polly's documented wait-and-retry contract.
- `HttpClient` configuration (base address, API-key header, client timeout) and the HTTP transport: the transport is a parameter.
- GeminiService.GeminiService.constructor: a negative `MaxRetries` or non-positive `TimeoutSeconds` makes the source throw `ArgumentOutOfRangeException`. The model requires a configuration that `BuildResiliencePolicy` accepts. The null-argument checks on injected services are not modelled.
- Null arguments to the case mutators are not modelled; every argument is present. In the source, `AddMedicalImage(null)` appends the null before `image.Id` throws, and `CompleteDiagnosis` with null alternatives throws from `AddRange` after the primary diagnosis was set and the list cleared, so both leave a partial update.
- GeminiWire.EnsureSuccessMessage: the reason phrase is taken exactly as the transport gives it. The model adds it whenever it is non-empty; the runtime's own tests (whitespace-only phrases, the standard description for known codes) are not modelled.
- Coordinator.DiagnosticCoordinatorAgent.ExecuteAsync: a `"case"` entry holding `null` is not representable. In the source, the `NullReferenceException` it causes is raised inside the `try` and caught there.
- Null image buffers inside the image list (which would make base64 encoding throw) are not modelled.
- Coordinator.DiagnosticCoordinatorAgent.ExecuteAsync: a `case` parameter of the wrong type (an `InvalidCastException` outside the `try`) is modelled like a missing key.
- `GetUnsyncedAsync`, EF Core persistence and DI wiring: the repositories are in-memory maps. `UpdateAsync` is a log of saved case ids.
- Records and enums with no behaviour are transcribed only as far as the model needs them.
- The `DiagnosisMode` of a diagnosis request is carried but, as in the source, never read.
