/** The `DiagnosticCase` aggregate: a bounded list of images, an optional audio
    description, a status, a diagnosis set all at once, and the append-only
    log of domain events that `Entity` keeps for it. */
module CaseAggregate {
  import opened Runtime
  import opened DomainModel
  import opened BaseTypes
  import opened PatientEntity

  const MaxImages: nat := 10
  const TooManyImages := "Maximum 10 images per case"
  const NotInProgress := "Case must be in progress"

  /** The statuses from which a diagnosis may be completed. */
  predicate CanComplete(s: CaseStatus) {
    s == InProgress || s == Created
  }

  class DiagnosticCase {
    const id: Guid
    const patient: Patient
    const healthcareWorkerId: Guid
    const context: ContextualInformation
    const createdAt: Timestamp
    var images: seq<MedicalImage>
    var audioDescription: Option<AudioSymptomDescription>
    var primaryDiagnosis: Option<DifferentialDiagnosis>
    var alternativeDiagnoses: seq<DifferentialDiagnosis>
    var recommendedProtocol: Option<TreatmentProtocol>
    var status: CaseStatus
    var completedAt: Option<Timestamp>
    var isSyncedToCloud: bool
    var domainEvents: seq<DomainEvent>

    /** At most ten images, and the diagnosis fields are either all unset or all
        set, the latter whenever the status says the diagnosis is complete. */
    ghost predicate Valid()
      reads this
    {
      && |images| <= MaxImages
      && (primaryDiagnosis.Some? <==> recommendedProtocol.Some?)
      && (primaryDiagnosis.Some? <==> completedAt.Some?)
      && (status == DiagnosisCompleted ==> primaryDiagnosis.Some?)
    }

    /** `newId` and `now` stand for `Guid.NewGuid()` and `DateTimeOffset.UtcNow`. */
    constructor (patient: Patient, healthcareWorkerId: Guid, context: ContextualInformation,
                 newId: Guid, now: Timestamp)
      ensures Valid()
      ensures id == newId && this.patient == patient && this.healthcareWorkerId == healthcareWorkerId
      ensures this.context == context && createdAt == now
      ensures status == Created && !isSyncedToCloud
      ensures images == [] && audioDescription.None? && alternativeDiagnoses == []
      ensures primaryDiagnosis.None? && recommendedProtocol.None? && completedAt.None?
      ensures domainEvents == [DiagnosticCaseCreatedEvent(newId, patient.id)]
    {
      id := newId;
      this.patient := patient;
      this.healthcareWorkerId := healthcareWorkerId;
      this.context := context;
      status := Created;
      createdAt := now;
      isSyncedToCloud := false;
      images := [];
      audioDescription := None;
      primaryDiagnosis := None;
      alternativeDiagnoses := [];
      recommendedProtocol := None;
      completedAt := None;
      new;
      domainEvents := [];
      AddDomainEvent(DiagnosticCaseCreatedEvent(id, patient.id));
    }

    function Identity(): EntityIdentity {
      EntityIdentity("DiagnosticCase", id)
    }

    /** `Entity.AddDomainEvent`: appends at the end, earlier events untouched. */
    method AddDomainEvent(e: DomainEvent)
      modifies this`domainEvents
      ensures domainEvents == old(domainEvents) + [e]
    {
      domainEvents := domainEvents + [e];
    }

    /** `Entity.ClearDomainEvents`. */
    method ClearDomainEvents()
      modifies this`domainEvents
      ensures domainEvents == []
    {
      domainEvents := [];
    }

    /** Appends the image and one event while fewer than ten images are held;
        otherwise fails and changes nothing. */
    method AddMedicalImage(image: MedicalImage) returns (r: Result)
      requires Valid()
      modifies this`images, this`domainEvents
      ensures Valid()
      ensures old(|images|) < MaxImages ==>
        && r == Success()
        && images == old(images) + [image]
        && domainEvents == old(domainEvents) + [ImageAddedEvent(id, image.id)]
      ensures old(|images|) >= MaxImages ==>
        && r == Failure(TooManyImages)
        && images == old(images)
        && domainEvents == old(domainEvents)
    {
      if |images| >= MaxImages {
        return Failure(TooManyImages);
      }
      images := images + [image];
      AddDomainEvent(ImageAddedEvent(id, image.id));
      return Success();
    }

    /** Always succeeds, replacing any earlier audio and appending one event. */
    method SetAudioDescription(audio: AudioSymptomDescription) returns (r: Result)
      requires Valid()
      modifies this`audioDescription, this`domainEvents
      ensures Valid()
      ensures r == Success()
      ensures audioDescription == Some(audio)
      ensures domainEvents == old(domainEvents) + [AudioDescriptionAddedEvent(id)]
    {
      audioDescription := Some(audio);
      AddDomainEvent(AudioDescriptionAddedEvent(id));
      return Success();
    }

    /** From `Created` or `InProgress`, records primary diagnosis, alternatives
        and protocol together and moves to `DiagnosisCompleted`; from any other
        status fails and changes nothing. */
    method CompleteDiagnosis(primary: DifferentialDiagnosis, alternatives: seq<DifferentialDiagnosis>,
                             protocol: TreatmentProtocol, now: Timestamp) returns (r: Result)
      requires Valid()
      modifies this`primaryDiagnosis, this`alternativeDiagnoses, this`recommendedProtocol,
               this`status, this`completedAt, this`domainEvents
      ensures Valid()
      ensures !CanComplete(old(status)) ==>
        && r == Failure(NotInProgress)
        && status == old(status)
        && primaryDiagnosis == old(primaryDiagnosis)
        && alternativeDiagnoses == old(alternativeDiagnoses)
        && recommendedProtocol == old(recommendedProtocol)
        && completedAt == old(completedAt)
        && domainEvents == old(domainEvents)
      ensures CanComplete(old(status)) ==>
        && r == Success()
        && status == DiagnosisCompleted
        && primaryDiagnosis == Some(primary)
        && alternativeDiagnoses == alternatives
        && recommendedProtocol == Some(protocol)
        && completedAt == Some(now)
        && domainEvents == old(domainEvents) + [DiagnosisCompletedEvent(id, primary.conditionName)]
    {
      if status != InProgress && status != Created {
        return Failure(NotInProgress);
      }
      primaryDiagnosis := Some(primary);
      alternativeDiagnoses := [];
      alternativeDiagnoses := alternativeDiagnoses + alternatives;
      recommendedProtocol := Some(protocol);
      status := DiagnosisCompleted;
      completedAt := Some(now);
      AddDomainEvent(DiagnosisCompletedEvent(id, primary.conditionName));
      return Success();
    }

    /** Moves to `InProgress` from every status, terminal ones included. */
    method StartDiagnosis()
      requires Valid()
      modifies this`status
      ensures Valid()
      ensures status == InProgress
    {
      status := InProgress;
    }

    /** Idempotent: sets the flag and nothing else. */
    method MarkAsSynced()
      requires Valid()
      modifies this`isSyncedToCloud
      ensures Valid()
      ensures isSyncedToCloud
    {
      isSyncedToCloud := true;
    }
  }

  /** Ten images fill a case; the eleventh is refused and the count stays at ten. */
  method EleventhImageIsRefused(c: DiagnosticCase, extra: MedicalImage) returns (r: Result)
    requires c.Valid() && |c.images| == MaxImages
    modifies c
    ensures c.Valid()
    ensures r.IsFailure() && r.error == TooManyImages
    ensures c.images == old(c.images) && |c.images| == 10
  {
    r := c.AddMedicalImage(extra);
  }

  /** A case in a status past `InProgress` (here `Resolved`) cannot be completed,
      and its diagnosis fields stay as they were. */
  method CompletingAResolvedCaseFails(c: DiagnosticCase, primary: DifferentialDiagnosis,
                                      protocol: TreatmentProtocol, now: Timestamp) returns (r: Result)
    requires c.Valid() && c.status == Resolved
    modifies c
    ensures r == Failure(NotInProgress)
    ensures c.status == Resolved && c.primaryDiagnosis == old(c.primaryDiagnosis)
    ensures c.recommendedProtocol == old(c.recommendedProtocol)
  {
    r := c.CompleteDiagnosis(primary, [], protocol, now);
  }

  /** Starting a diagnosis first opens every case to completion, terminal ones
      included: `StartDiagnosis` has no guard. */
  method RestartThenComplete(c: DiagnosticCase, primary: DifferentialDiagnosis,
                             protocol: TreatmentProtocol, now: Timestamp) returns (r: Result)
    requires c.Valid()
    modifies c
    ensures r == Success()
    ensures c.status == DiagnosisCompleted && c.primaryDiagnosis == Some(primary)
  {
    c.StartDiagnosis();
    r := c.CompleteDiagnosis(primary, [], protocol, now);
  }
}
