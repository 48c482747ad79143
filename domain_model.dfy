/** The enums, value records and domain events of the BioLens domain, as far
    as the case lifecycle, the agents and the handlers use them. */
module DomainModel {
  import opened Runtime

  datatype CaseStatus =
    | Created
    | InProgress
    | DiagnosisCompleted
    | TreatmentAssigned
    | FollowUpRequired
    | Resolved
    | Escalated

  datatype ConfidenceLevel = Low | Medium | High | VeryHigh

  datatype UrgencyLevel = Routine | Urgent | Emergency | Critical

  datatype ImageType = Skin | Wound | Rash | Eyes | Throat | Limb | OtherImage

  /** `ImageType.ToString()`. */
  function ImageTypeName(t: ImageType): string {
    match t
    case Skin => "Skin"
    case Wound => "Wound"
    case Rash => "Rash"
    case Eyes => "Eyes"
    case Throat => "Throat"
    case Limb => "Limb"
    case OtherImage => "Other"
  }

  datatype BiologicalSex = Male | Female | Intersex | UnknownSex

  datatype AgeUnit = Days | Weeks | Months | Years

  datatype FacilityCapabilities = BasicHealthPost | RuralClinic | DistrictHospital | ReferralHospital

  /** `FacilityCapabilities.ToString()`. */
  function FacilityName(f: FacilityCapabilities): string {
    match f
    case BasicHealthPost => "BasicHealthPost"
    case RuralClinic => "RuralClinic"
    case DistrictHospital => "DistrictHospital"
    case ReferralHospital => "ReferralHospital"
  }

  datatype ImageMetadata = ImageMetadata(width: int, height: int, fileSizeBytes: int, deviceModel: string)

  datatype MedicalImage = MedicalImage(
    id: Guid,
    localFilePath: string,
    cloudBlobUrl: Option<string>,
    imageType: ImageType,
    metadata: ImageMetadata,
    capturedAt: Timestamp)

  datatype AudioSymptomDescription = AudioSymptomDescription(
    id: Guid,
    localFilePath: string,
    cloudBlobUrl: Option<string>,
    languageCode: string,
    durationSeconds: int,
    transcribedText: Option<string>,
    recordedAt: Timestamp)

  datatype DifferentialDiagnosis = DifferentialDiagnosis(
    conditionName: string,
    icd10Code: string,
    confidence: ConfidenceLevel,
    supportingEvidence: seq<string>,
    warningFlags: seq<string>,
    urgency: UrgencyLevel)

  datatype TreatmentStep = TreatmentStep(
    stepNumber: int, instruction: string, durationMinutes: int, requiredMaterials: seq<string>)

  datatype MedicationRecommendation = MedicationRecommendation(
    medicationName: string, dosage: string, frequency: string, durationDays: int, contraindications: seq<string>)

  datatype FollowUpGuidance = FollowUpGuidance(
    improvementSigns: seq<string>, worseningSigns: seq<string>, followUpDays: int)

  datatype EmergencyEscalation = EmergencyEscalation(
    escalationCriteria: seq<string>, escalationUrgency: UrgencyLevel, recommendedFacility: string)

  datatype TreatmentProtocol = TreatmentProtocol(
    protocolName: string,
    steps: seq<TreatmentStep>,
    medications: seq<MedicationRecommendation>,
    contraindications: seq<string>,
    followUp: FollowUpGuidance,
    escalationCriteria: EmergencyEscalation)

  /** Latitude and longitude (floating point) are not part of this model. */
  datatype GeographicRegion = GeographicRegion(country: string, region: string, district: Option<string>)

  datatype CulturalConsiderations = CulturalConsiderations(
    primaryLanguage: string, commonBeliefs: seq<string>, treatmentPreferences: seq<string>)

  datatype ContextualInformation = ContextualInformation(
    region: GeographicRegion,
    availableMedications: seq<string>,
    localEndemicDiseases: seq<string>,
    facilityLevel: FacilityCapabilities,
    culturalContext: CulturalConsiderations)

  datatype KnownCondition = KnownCondition(
    conditionName: string, icd10Code: string, diagnosedDate: Timestamp, isActive: bool)

  datatype Allergy = Allergy(allergenName: string, severity: string, reaction: string)

  /** The events the case aggregate raises. Each event's own `EventId` and
      `OccurredAt` (a fresh Guid and a clock reading) are not modelled. */
  datatype DomainEvent =
    | DiagnosticCaseCreatedEvent(caseId: Guid, patientId: Guid)
    | ImageAddedEvent(caseId: Guid, imageId: Guid)
    | AudioDescriptionAddedEvent(caseId: Guid)
    | DiagnosisCompletedEvent(caseId: Guid, primaryCondition: string)
}
