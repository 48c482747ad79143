/** The diagnostic coordinator: runs the image, audio, reasoning and treatment
    stages in that order, records a progress message before each, and turns the
    first exception any stage throws into a failed response carrying the
    messages so far. */
module Coordinator {
  import opened Runtime
  import opened Text
  import opened AgentBase
  import opened StageAgents
  import CaseAggregate

  const ImagesProgress := "\U{1F50D} Analyzing medical images..."
  const AudioProgress := "\U{1F3A4} Processing audio symptoms..."
  const ReasoningProgress := "\U{1F9E0} Generating differential diagnosis..."
  const TreatmentProgress := "\U{1F48A} Creating treatment protocol..."
  const WorkflowCompleted := "\U{2705} Diagnostic workflow completed"

  /** The progress message recorded before each stage, in stage order. */
  const Progress: seq<string> := [ImagesProgress, AudioProgress, ReasoningProgress, TreatmentProgress]

  /** The `requestType` of each stage's sub-request, in stage order. */
  const StageRequestTypes: seq<string> := ["AnalyzeImages", "TranscribeAudio", "GenerateDiagnosis", "CreateTreatmentPlan"]

  const AgentsInvolved: seq<string> := ["Image", "Audio", "Reasoning", "Treatment"]

  function ErrorMessage(e: Exception): string {
    "\U{274C} Error: " + e.Message()
  }

  datatype Stages = Stages(image: Stage, audio: Stage, reasoning: Stage, treatment: Stage)

  /** The stage in position `i` of the workflow. */
  function StageAt(stages: Stages, i: nat): Stage
    requires i < 4
  {
    if i == 0 then stages.image
    else if i == 1 then stages.audio
    else if i == 2 then stages.reasoning
    else stages.treatment
  }

  /** The concrete agents, all sharing one kernel and one JSON parser. */
  function AgentStages(kernel: Kernel, parse: JsonParser): Stages {
    Stages(
      request => ImageAnalysis(request, kernel, parse),
      request => AudioTranscription(request, kernel),
      request => MedicalReasoning(request, kernel, parse),
      request => TreatmentPlanning(request, kernel, parse))
  }

  /** What the coordinator reads of the case: its images, its audio (possibly
      null), the patient and the context. */
  datatype CaseView = CaseView(
    images: seq<DomainModel.MedicalImage>,
    audio: Option<DomainModel.AudioSymptomDescription>,
    patient: PatientInfo,
    context: DomainModel.ContextualInformation)

  function View(c: CaseAggregate.DiagnosticCase): CaseView
    reads c, c.patient
  {
    CaseView(c.images, c.audioDescription,
             PatientInfo(c.patient.ageYears, c.patient.ageUnit, c.patient.sex,
                         c.patient.medicalHistory, c.patient.knownAllergies),
             c.context)
  }

  // Each sub-request carries the outer request's id and context.

  function ImagesRequest(request: AgentRequest, v: CaseView): AgentRequest {
    AgentRequest(request.requestId, StageRequestTypes[0], ImagesParameter(v.images), request.context)
  }

  function AudioRequest(request: AgentRequest, v: CaseView): AgentRequest {
    AgentRequest(request.requestId, StageRequestTypes[1], AudioParameter(v.audio), request.context)
  }

  function DiagnosisRequest(request: AgentRequest, v: CaseView, imageFindings: Payload, audioFindings: Payload)
    : AgentRequest
  {
    AgentRequest(request.requestId, StageRequestTypes[2],
                 DiagnosisParameters(imageFindings, audioFindings, v.patient, v.context), request.context)
  }

  function TreatmentRequest(request: AgentRequest, v: CaseView, diagnosis: Payload): AgentRequest {
    AgentRequest(request.requestId, StageRequestTypes[3], TreatmentParameters(diagnosis, v.context), request.context)
  }

  function Succeeded(request: AgentRequest, diagnosis: Payload, treatment: Payload, now: Timestamp): AgentResponse {
    AgentResponse(request.requestId, true, DiagnosisAndTreatment(diagnosis, treatment),
                  Progress + [WorkflowCompleted],
                  map["completedAt" := TimeValue(now), "agentsInvolved" := TextList(AgentsInvolved)])
  }

  /** The catch block: `reached` is the number of stages started. */
  function Failed(request: AgentRequest, reached: nat, e: Exception): AgentResponse
    requires 1 <= reached <= 4
  {
    AgentResponse(request.requestId, false, Null, Progress[..reached] + [ErrorMessage(e)],
                  map["error" := ErrorValue(e)])
  }

  /** A run of the workflow: the response and the sub-requests issued, in order. */
  datatype PipelineRun = PipelineRun(response: AgentResponse, issued: seq<AgentRequest>)

  /** The body of the `try` block together with its `catch`: the image stage is
      always asked first, at most the four stages are asked, and the run
      succeeds exactly when the treatment stage, asked last, returns. */
  function Pipeline(stages: Stages, request: AgentRequest, v: CaseView, now: Timestamp): (run: PipelineRun)
    ensures 1 <= |run.issued| <= 4 && run.issued[0] == ImagesRequest(request, v)
    ensures run.response.requestId == request.requestId
    ensures run.response.isSuccess <==> |run.issued| == 4 && stages.treatment(run.issued[3]).Returned?
  {
    var q0 := ImagesRequest(request, v);
    match stages.image(q0)
    case Threw(e) => PipelineRun(Failed(request, 1, e), [q0])
    case Returned(imageAnalysis) =>
      var q1 := AudioRequest(request, v);
      match stages.audio(q1)
      case Threw(e) => PipelineRun(Failed(request, 2, e), [q0, q1])
      case Returned(audioAnalysis) =>
        var q2 := DiagnosisRequest(request, v, imageAnalysis.result, audioAnalysis.result);
        match stages.reasoning(q2)
        case Threw(e) => PipelineRun(Failed(request, 3, e), [q0, q1, q2])
        case Returned(diagnosis) =>
          var q3 := TreatmentRequest(request, v, diagnosis.result);
          match stages.treatment(q3)
          case Threw(e) => PipelineRun(Failed(request, 4, e), [q0, q1, q2, q3])
          case Returned(treatment) =>
            PipelineRun(Succeeded(request, diagnosis.result, treatment.result, now), [q0, q1, q2, q3])
  }

  class DiagnosticCoordinatorAgent {
    const stages: Stages

    constructor (kernel: Kernel, parse: JsonParser)
      ensures stages == AgentStages(kernel, parse)
    {
      stages := AgentStages(kernel, parse);
    }

    /** `ExecuteAsync`: a request without a case throws before the `try`
        block; otherwise the workflow runs and its response is returned, never
        an exception. `now` stands for `DateTimeOffset.UtcNow`. */
    method ExecuteAsync(request: AgentRequest, now: Timestamp) returns (outcome: StageOutcome)
      ensures !request.parameters.CaseParameter? ==> outcome == Threw(MissingKey("case"))
      ensures request.parameters.CaseParameter? ==>
        outcome == Returned(Pipeline(stages, request, View(request.parameters.diagnosticCase), now).response)
    {
      if !request.parameters.CaseParameter? {
        return Threw(MissingKey("case"));
      }
      var diagnosticCase := request.parameters.diagnosticCase;
      var v := View(diagnosticCase);
      var messages: seq<string> := [];

      messages := messages + [ImagesProgress];
      var imageAnalysis := stages.image(ImagesRequest(request, v));
      if imageAnalysis.Threw? {
        return Returned(CatchBlock(request, messages, imageAnalysis.error));
      }

      messages := messages + [AudioProgress];
      var audioAnalysis := stages.audio(AudioRequest(request, v));
      if audioAnalysis.Threw? {
        return Returned(CatchBlock(request, messages, audioAnalysis.error));
      }

      messages := messages + [ReasoningProgress];
      var diagnosis := stages.reasoning(
        DiagnosisRequest(request, v, imageAnalysis.response.result, audioAnalysis.response.result));
      if diagnosis.Threw? {
        return Returned(CatchBlock(request, messages, diagnosis.error));
      }

      messages := messages + [TreatmentProgress];
      var treatment := stages.treatment(TreatmentRequest(request, v, diagnosis.response.result));
      if treatment.Threw? {
        return Returned(CatchBlock(request, messages, treatment.error));
      }

      messages := messages + [WorkflowCompleted];
      return Returned(AgentResponse(
        request.requestId, true, DiagnosisAndTreatment(diagnosis.response.result, treatment.response.result),
        messages, map["completedAt" := TimeValue(now), "agentsInvolved" := TextList(AgentsInvolved)]));
    }
  }

  /** The `catch` block applied to the messages recorded so far. */
  function CatchBlock(request: AgentRequest, messages: seq<string>, e: Exception): (r: AgentResponse)
    ensures !r.isSuccess && r.result == Null
    ensures r.messages == messages + [ErrorMessage(e)]
  {
    AgentResponse(request.requestId, false, Null, messages + [ErrorMessage(e)], map["error" := ErrorValue(e)])
  }

  // ------------------------------------------------------------ properties

  /** At least the image stage is always asked, and at most four requests go out. */
  lemma IssuedBetweenOneAndFour(stages: Stages, request: AgentRequest, v: CaseView, now: Timestamp)
    ensures 1 <= |Pipeline(stages, request, v, now).issued| <= 4
  {
  }

  /** The stages run in workflow order, each asked once, and each sub-request
      carries the stage's request type and the outer request's id and context. */
  lemma SubRequestsInStageOrder(stages: Stages, request: AgentRequest, v: CaseView, now: Timestamp)
    ensures var run := Pipeline(stages, request, v, now);
      forall i :: 0 <= i < |run.issued| ==>
        && i < 4
        && run.issued[i].requestType == StageRequestTypes[i]
        && run.issued[i].requestId == request.requestId
        && run.issued[i].context == request.context
  {
  }

  /** The workflow succeeds exactly when every stage it asks returns a response
      (whatever that response's own `IsSuccess` says), and then all four were
      asked; otherwise the last stage asked is the one that threw and every
      earlier one returned. */
  lemma SucceedsIffEveryStageReturns(stages: Stages, request: AgentRequest, v: CaseView, now: Timestamp)
    ensures var run := Pipeline(stages, request, v, now);
      && 1 <= |run.issued| <= 4
      && (run.response.isSuccess <==>
            (|run.issued| == 4 && forall i :: 0 <= i < 4 ==> StageAt(stages, i)(run.issued[i]).Returned?))
      && (!run.response.isSuccess ==>
            && StageAt(stages, |run.issued| - 1)(run.issued[|run.issued| - 1]).Threw?
            && forall i :: 0 <= i < |run.issued| - 1 ==> StageAt(stages, i)(run.issued[i]).Returned?)
  {
    var run := Pipeline(stages, request, v, now);
    var n := |run.issued|;
    if run.response.isSuccess {
      assert n == 4;
    } else {
      assert 1 <= n <= 4;
      assert StageAt(stages, n - 1)(run.issued[n - 1]).Threw?;
    }
  }

  /** The trace: a successful run records the four progress messages and the
      completion message; a failed one records the progress messages of the
      stages it started and then the error of the stage that threw. */
  lemma TraceShape(stages: Stages, request: AgentRequest, v: CaseView, now: Timestamp)
    ensures var run := Pipeline(stages, request, v, now);
      var n := |run.issued|;
      && 1 <= n <= 4
      && run.response.requestId == request.requestId
      && (run.response.isSuccess ==> run.response.messages == Progress + [WorkflowCompleted])
      && (!run.response.isSuccess ==>
            var failure := StageAt(stages, n - 1)(run.issued[n - 1]);
            && failure.Threw?
            && run.response.result == Null
            && run.response.messages == Progress[..n] + [ErrorMessage(failure.error)]
            && run.response.metadata == map["error" := ErrorValue(failure.error)])
      && |run.response.messages| == n + 1
      && run.response.messages[..n] == Progress[..n]
  {
    SucceedsIffEveryStageReturns(stages, request, v, now);
  }

  /** Data flow: the reasoning stage is given the image and audio results, and
      the treatment stage the reasoning result; the final result pairs the
      reasoning and treatment results. */
  lemma ResultsFlowForward(stages: Stages, request: AgentRequest, v: CaseView, now: Timestamp)
    ensures var run := Pipeline(stages, request, v, now);
      var q := run.issued;
      && q[0].parameters == ImagesParameter(v.images)
      && (|q| >= 2 ==> q[1].parameters == AudioParameter(v.audio))
      && (|q| >= 3 ==>
            && q[2].parameters.DiagnosisParameters?
            && q[2].parameters.imageFindings == stages.image(q[0]).response.result
            && q[2].parameters.audioFindings == stages.audio(q[1]).response.result
            && q[2].parameters.patient == v.patient
            && q[2].parameters.context == v.context)
      && (|q| == 4 ==>
            && q[3].parameters == TreatmentParameters(stages.reasoning(q[2]).response.result, v.context))
      && (run.response.isSuccess ==>
            run.response.result == DiagnosisAndTreatment(stages.reasoning(q[2]).response.result,
                                                         stages.treatment(q[3]).response.result))
  {
  }

  /** With the concrete agents, a case without audio never reaches the
      reasoning stage: the audio agent dereferences the missing description
      and the workflow fails at its second step (unless the image stage already
      failed). */
  lemma MissingAudioFailsAtAudioStage(kernel: Kernel, parse: JsonParser, request: AgentRequest,
                                      v: CaseView, now: Timestamp)
    requires v.audio.None?
    requires kernel(ImagePromptFor(v.images)).Replied?
    ensures var run := Pipeline(AgentStages(kernel, parse), request, v, now);
      && !run.response.isSuccess
      && |run.issued| == 2
      && run.response.messages == [ImagesProgress, AudioProgress, ErrorMessage(NullReference)]
  {
    var stages := AgentStages(kernel, parse);
    assert stages.image(ImagesRequest(request, v)).Returned?;
    assert stages.audio(AudioRequest(request, v)) == Threw(NullReference);
    assert Progress[..2] == [ImagesProgress, AudioProgress];
  }

  /** With the concrete agents, a case with audio whose model answers every
      prompt completes the workflow, whatever the answers are. */
  lemma AnsweringModelCompletesTheWorkflow(kernel: Kernel, parse: JsonParser, request: AgentRequest,
                                           v: CaseView, now: Timestamp)
    requires v.audio.Some?
    requires forall p :: kernel(p).Replied?
    ensures var run := Pipeline(AgentStages(kernel, parse), request, v, now);
      && run.response.isSuccess
      && |run.issued| == 4
      && run.response.messages == Progress + [WorkflowCompleted]
  {
    var stages := AgentStages(kernel, parse);
    var q0 := ImagesRequest(request, v);
    assert kernel(ImagePromptFor(v.images)).Replied?;
    var r0 := stages.image(q0);
    assert r0.Returned?;
    var q1 := AudioRequest(request, v);
    assert kernel(AudioPromptFor(v.audio).value).Replied?;
    var r1 := stages.audio(q1);
    assert r1.Returned?;
    var q2 := DiagnosisRequest(request, v, r0.response.result, r1.response.result);
    assert kernel(DiagnosticPromptFor(r0.response.result, r1.response.result, v.patient, v.context)).Replied?;
    var r2 := stages.reasoning(q2);
    assert r2.Returned?;
    assert kernel(TreatmentPromptFor(r2.response.result, v.context)).Replied?;
  }
}
