/** The records every agent exchanges: requests, responses, the untyped result
    payload and the outcome of running one stage. */
module AgentBase {
  import opened Runtime
  import opened DomainModel
  import CaseAggregate

  /** An opaque JSON document produced by `JsonSerializer.Deserialize<object>`. */
  datatype JsonDocument = JsonDocument(source: string)

  /** What the JSON parser does with a text: a document, the literal `null`, or
      an exception. The parser itself is not modelled. */
  datatype ParseOutcome = Parsed(doc: JsonDocument) | ParsedNull | ParseFailed(error: Exception)

  type JsonParser = string -> ParseOutcome

  /** The `object? Result` of an `AgentResponse`. */
  datatype Payload =
    | Null
    | Json(doc: JsonDocument)
    | EmptyObject                                     // new { }
    | RawTextFallback(rawText: string)                // new { rawText = response }
    | ParseErrorFallback(error: string, raw: string)  // new { error = ..., raw = json }
    | Text(text: string)                              // a plain string
    | DiagnosisAndTreatment(diagnosis: Payload, treatment: Payload)

  /** What the reasoning stage reads of the patient while building its prompt. */
  datatype PatientInfo = PatientInfo(
    ageYears: Option<int>,
    ageUnit: AgeUnit,
    sex: BiologicalSex,
    medicalHistory: seq<KnownCondition>,
    knownAllergies: seq<Allergy>)

  /** The `Parameters` dictionary, one shape per request type. */
  datatype Parameters =
    | CaseParameter(diagnosticCase: CaseAggregate.DiagnosticCase)
    | ImagesParameter(images: seq<MedicalImage>)
    | AudioParameter(audio: Option<AudioSymptomDescription>)
    | DiagnosisParameters(imageFindings: Payload, audioFindings: Payload,
                          patient: PatientInfo, context: ContextualInformation)
    | TreatmentParameters(diagnosis: Payload, context: ContextualInformation)

  /** `AgentContext`; its shared memory is always empty in the core. */
  datatype AgentContext = AgentContext(caseId: Guid)

  datatype AgentRequest = AgentRequest(
    requestId: string,
    requestType: string,
    parameters: Parameters,
    context: AgentContext)

  datatype MetadataValue =
    | IntValue(i: int)
    | TextValue(s: string)
    | BoolValue(b: bool)
    | TimeValue(t: Timestamp)
    | TextList(items: seq<string>)
    | ErrorValue(e: Exception)

  datatype AgentResponse = AgentResponse(
    requestId: string,
    isSuccess: bool,
    result: Payload,
    messages: seq<string>,
    metadata: map<string, MetadataValue>)

  /** Awaiting `ExecuteAsync`: either a response comes back or an exception escapes. */
  datatype StageOutcome = Returned(response: AgentResponse) | Threw(error: Exception)

  type Stage = AgentRequest -> StageOutcome
}
