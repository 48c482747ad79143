/** The two command handlers: creating a case (reusing the patient with the
    same anonymised id, or registering a new one) and requesting a diagnosis
    (starting the case, running the coordinator and completing the case). The
    repositories are in-memory stores standing in for the database. */
module Handlers {
  import opened Runtime
  import opened Text
  import opened DomainModel
  import opened BaseTypes
  import opened PatientEntity
  import opened CaseAggregate
  import opened AgentBase
  import opened Coordinator

  datatype DiagnosisMode = Online | Offline | Hybrid

  datatype CreateDiagnosticCaseCommand = CreateDiagnosticCaseCommand(
    patientAnonymizedId: string,
    patientAge: Option<int>,
    patientAgeUnit: AgeUnit,
    patientSex: BiologicalSex,
    healthcareWorkerId: Guid,
    context: ContextualInformation)

  datatype RequestDiagnosisCommand = RequestDiagnosisCommand(caseId: Guid, mode: DiagnosisMode)

  datatype DiagnosisResultDto = DiagnosisResultDto(
    primaryDiagnosis: DifferentialDiagnosis,
    alternativeDiagnoses: seq<DifferentialDiagnosis>,
    treatmentProtocol: TreatmentProtocol,
    reasoningSteps: seq<string>)

  /** Awaiting a handler: a value comes back or an exception escapes. */
  datatype HandlerOutcome = Completed(dto: DiagnosisResultDto) | Failed(error: Exception)

  /** Patients, looked up by anonymised id. */
  class PatientRepository {
    var patients: map<string, Patient>

    ghost predicate Valid()
      reads this
    {
      forall k :: k in patients ==> patients[k].anonymizedId == k
    }

    constructor ()
      ensures Valid() && patients == map[]
    {
      patients := map[];
    }

    /** `GetByAnonymizedIdAsync`: `None` when no patient has that id. */
    method GetByAnonymizedId(anonymizedId: string) returns (p: Option<Patient>)
      requires Valid()
      ensures p.None? <==> anonymizedId !in patients
      ensures p.Some? ==> p.value == patients[anonymizedId] && p.value.anonymizedId == anonymizedId
    {
      if anonymizedId in patients {
        return Some(patients[anonymizedId]);
      }
      return None;
    }

    /** `AddAsync`: stores the patient and returns its id. */
    method Add(p: Patient) returns (id: Guid)
      requires Valid()
      modifies this
      ensures Valid()
      ensures patients == old(patients)[p.anonymizedId := p]
      ensures id == p.id
    {
      patients := patients[p.anonymizedId := p];
      return p.id;
    }
  }

  /** Cases, looked up by id, with the ids of the cases saved by `UpdateAsync`
      in the order they were saved. */
  class CaseRepository {
    var cases: map<Guid, DiagnosticCase>
    var updates: seq<Guid>

    ghost predicate Valid()
      reads this, cases.Values
    {
      forall k :: k in cases ==> cases[k].id == k && cases[k].Valid()
    }

    constructor ()
      ensures Valid() && cases == map[] && updates == []
    {
      cases := map[];
      updates := [];
    }

    /** The case stored under `id`, as a frame. */
    function Target(id: Guid): set<object>
      reads this
    {
      if id in cases then {cases[id]} else {}
    }

    /** `GetByIdAsync`: `None` when no case has that id. */
    method GetById(id: Guid) returns (c: Option<DiagnosticCase>)
      requires Valid()
      ensures c.None? <==> id !in cases
      ensures c.Some? ==> c.value == cases[id] && c.value.id == id && c.value.Valid()
    {
      if id in cases {
        return Some(cases[id]);
      }
      return None;
    }

    /** `AddAsync`: stores the case and returns its id. */
    method Add(c: DiagnosticCase) returns (id: Guid)
      requires Valid() && c.Valid() && c.id !in cases
      modifies this`cases
      ensures Valid()
      ensures cases == old(cases)[c.id := c]
      ensures id == c.id
    {
      cases := cases[c.id := c];
      return c.id;
    }

    /** `UpdateAsync`: saves the case's current state. */
    method Update(c: DiagnosticCase)
      requires c.id in cases && cases[c.id] == c
      modifies this`updates
      ensures updates == old(updates) + [c.id]
    {
      updates := updates + [c.id];
    }
  }

  class CreateDiagnosticCaseHandler {
    const patientRepository: PatientRepository
    const caseRepository: CaseRepository

    constructor (patientRepository: PatientRepository, caseRepository: CaseRepository)
      ensures this.patientRepository == patientRepository && this.caseRepository == caseRepository
    {
      this.patientRepository := patientRepository;
      this.caseRepository := caseRepository;
    }

    /** `Handle`: the case is attached to the stored patient with the command's
        anonymised id, or to a new patient built from the command and stored
        first. `newPatientId`, `newCaseId` and `now` stand for `Guid.NewGuid()`
        and `DateTimeOffset.UtcNow`. */
    method Handle(command: CreateDiagnosticCaseCommand, newPatientId: Guid, newCaseId: Guid, now: Timestamp)
      returns (caseId: Guid)
      requires patientRepository.Valid() && caseRepository.Valid()
      requires newCaseId !in caseRepository.cases
      modifies patientRepository, caseRepository
      ensures patientRepository.Valid() && caseRepository.Valid()
      ensures caseId == newCaseId
      ensures command.patientAnonymizedId in patientRepository.patients
      ensures command.patientAnonymizedId in old(patientRepository.patients) ==>
        patientRepository.patients == old(patientRepository.patients)
      ensures command.patientAnonymizedId !in old(patientRepository.patients) ==>
        var p := patientRepository.patients[command.patientAnonymizedId];
        && fresh(p)
        && patientRepository.patients == old(patientRepository.patients)[command.patientAnonymizedId := p]
        && p.id == newPatientId && p.ageYears == command.patientAge
        && p.ageUnit == command.patientAgeUnit && p.sex == command.patientSex
        && p.medicalHistory == [] && p.knownAllergies == []
      ensures caseRepository.updates == old(caseRepository.updates)
      ensures newCaseId in caseRepository.cases
      ensures var c := caseRepository.cases[newCaseId];
        && fresh(c)
        && caseRepository.cases == old(caseRepository.cases)[newCaseId := c]
        && c.patient == patientRepository.patients[command.patientAnonymizedId]
        && c.healthcareWorkerId == command.healthcareWorkerId && c.context == command.context
        && c.status == Created && c.images == [] && c.audioDescription.None? && c.createdAt == now
        && !c.isSyncedToCloud && c.primaryDiagnosis.None? && c.alternativeDiagnoses == []
        && c.recommendedProtocol.None? && c.completedAt.None?
        && c.domainEvents == [DiagnosticCaseCreatedEvent(newCaseId, c.patient.id)]
    {
      var found := patientRepository.GetByAnonymizedId(command.patientAnonymizedId);
      var patient: Patient;
      if found.None? {
        patient := new Patient(command.patientAnonymizedId, command.patientAge, command.patientAgeUnit,
                               command.patientSex, newPatientId, now);
        var _ := patientRepository.Add(patient);
      } else {
        patient := found.value;
      }
      var diagnosticCase := new DiagnosticCase(patient, command.healthcareWorkerId, command.context,
                                               newCaseId, now);
      caseId := caseRepository.Add(diagnosticCase);
    }
  }

  /** The diagnosis and protocol the handler records in place of the
      coordinator's result. */
  const SamplePrimary := DifferentialDiagnosis("Sample Diagnosis", "A00.0", Medium, ["Evidence 1"], [], Routine)
  const SampleTreatment := TreatmentProtocol(
    "Sample Protocol", [], [], [], FollowUpGuidance([], [], 7),
    EmergencyEscalation([], Urgent, "District Hospital"))

  function NotFoundMessage(id: Guid): string {
    "Case " + id.text + " not found"
  }

  /** The text of the `InvalidOperationException` a failed run raises: the
      fixed prefix, then the run's messages, ending with the last one. */
  function DiagnosisFailedMessage(messages: seq<string>): (r: string)
    ensures "Diagnosis failed: " <= r
    ensures |messages| == 0 ==> r == "Diagnosis failed: "
    ensures |messages| > 0 ==>
      (|messages[|messages| - 1]| <= |r| && r[|r| - |messages[|messages| - 1]|..] == messages[|messages| - 1])
  {
    JoinEndsWithTheLast(", ", messages);
    "Diagnosis failed: " + Join(", ", messages)
  }

  /** The request the handler sends to the coordinator. */
  function RunDiagnosisRequest(requestId: string, c: DiagnosticCase): AgentRequest {
    AgentRequest(requestId, "RunDiagnosis", CaseParameter(c), AgentContext(c.id))
  }

  class RequestDiagnosisHandler {
    const repository: CaseRepository
    const coordinator: DiagnosticCoordinatorAgent

    constructor (repository: CaseRepository, coordinator: DiagnosticCoordinatorAgent)
      ensures this.repository == repository && this.coordinator == coordinator
    {
      this.repository := repository;
      this.coordinator := coordinator;
    }

    /** `Handle`: an unknown case throws `KeyNotFoundException`. Otherwise the
        case is started and the coordinator run on it; a failed run throws
        `InvalidOperationException` listing the run's messages and leaves the
        case started but unsaved; a successful run completes the case with the
        sample diagnosis and protocol, saves it once, and returns them with the
        run's messages as reasoning steps. `requestId`, `runNow` and
        `completionNow` stand for `Guid.NewGuid()` and the two clock readings. */
    method Handle(command: RequestDiagnosisCommand, requestId: string, runNow: Timestamp, completionNow: Timestamp)
      returns (outcome: HandlerOutcome)
      requires repository.Valid()
      modifies repository`updates, repository.Target(command.caseId)
      ensures repository.Valid()
      ensures repository.cases == old(repository.cases)
      ensures command.caseId !in repository.cases ==>
        && outcome == Failed(KeyNotFound(NotFoundMessage(command.caseId)))
        && repository.updates == old(repository.updates)
      ensures command.caseId in repository.cases ==>
        var c := repository.cases[command.caseId];
        var response := Pipeline(coordinator.stages, RunDiagnosisRequest(requestId, c), View(c), runNow).response;
        && c.images == old(c.images) && c.audioDescription == old(c.audioDescription)
        && c.isSyncedToCloud == old(c.isSyncedToCloud)
        && (!response.isSuccess ==>
              && outcome == Failed(InvalidOperation(DiagnosisFailedMessage(response.messages)))
              && c.status == InProgress
              && c.primaryDiagnosis == old(c.primaryDiagnosis)
              && c.alternativeDiagnoses == old(c.alternativeDiagnoses)
              && c.recommendedProtocol == old(c.recommendedProtocol)
              && c.completedAt == old(c.completedAt)
              && c.domainEvents == old(c.domainEvents)
              && repository.updates == old(repository.updates))
        && (response.isSuccess ==>
              && outcome == Completed(DiagnosisResultDto(SamplePrimary, [], SampleTreatment, response.messages))
              && c.status == DiagnosisCompleted
              && c.primaryDiagnosis == Some(SamplePrimary)
              && c.alternativeDiagnoses == []
              && c.recommendedProtocol == Some(SampleTreatment)
              && c.completedAt == Some(completionNow)
              && c.domainEvents == old(c.domainEvents) + [DiagnosisCompletedEvent(c.id, SamplePrimary.conditionName)]
              && repository.updates == old(repository.updates) + [command.caseId])
    {
      var found := repository.GetById(command.caseId);
      if found.None? {
        return Failed(KeyNotFound(NotFoundMessage(command.caseId)));
      }
      var diagnosticCase := found.value;
      diagnosticCase.StartDiagnosis();

      var agentRequest := RunDiagnosisRequest(requestId, diagnosticCase);
      var agentOutcome := coordinator.ExecuteAsync(agentRequest, runNow);
      var agentResponse := agentOutcome.response;

      if !agentResponse.isSuccess {
        return Failed(InvalidOperation(DiagnosisFailedMessage(agentResponse.messages)));
      }

      var _ := diagnosticCase.CompleteDiagnosis(SamplePrimary, [], SampleTreatment, completionNow);
      repository.Update(diagnosticCase);
      return Completed(DiagnosisResultDto(SamplePrimary, [], SampleTreatment, agentResponse.messages));
    }
  }

  /** The text of the `InvalidOperationException` for a failed run ends with
      the coordinator's error line, and everything before it lists the progress
      messages of the stages started, separated by ", ". */
  lemma {:induction false} FailureMessageEndsWithTheError(stages: Stages, request: AgentRequest, v: CaseView,
                                                          now: Timestamp)
    requires !Pipeline(stages, request, v, now).response.isSuccess
    ensures var run := Pipeline(stages, request, v, now);
      var n := |run.issued|;
      && 1 <= n <= 4
      && DiagnosisFailedMessage(run.response.messages) ==
           "Diagnosis failed: " + Join(", ", Progress[..n]) + ", "
           + ErrorMessage(StageAt(stages, n - 1)(run.issued[n - 1]).error)
  {
    var run := Pipeline(stages, request, v, now);
    var n := |run.issued|;
    TraceShape(stages, request, v, now);
    var e := StageAt(stages, n - 1)(run.issued[n - 1]).error;
    assert run.response.messages == Progress[..n] + [ErrorMessage(e)];
    JoinAppend(", ", Progress[..n], ErrorMessage(e));
  }
}
