/** The `Patient` entity: identifying data fixed at construction and two
    append-only lists, the medical history and the known allergies. */
module PatientEntity {
  import opened Runtime
  import opened DomainModel
  import BaseTypes

  class Patient {
    const id: Guid
    const anonymizedId: string
    const ageYears: Option<int>
    const ageUnit: AgeUnit
    const sex: BiologicalSex
    const createdAt: Timestamp
    var medicalHistory: seq<KnownCondition>
    var knownAllergies: seq<Allergy>

    /** `newId` and `now` stand for `Guid.NewGuid()` and `DateTimeOffset.UtcNow`. */
    constructor (anonymizedId: string, ageYears: Option<int>, ageUnit: AgeUnit, sex: BiologicalSex,
                 newId: Guid, now: Timestamp)
      ensures this.id == newId && this.createdAt == now
      ensures this.anonymizedId == anonymizedId && this.ageYears == ageYears
      ensures this.ageUnit == ageUnit && this.sex == sex
      ensures medicalHistory == [] && knownAllergies == []
    {
      id := newId;
      this.anonymizedId := anonymizedId;
      this.ageYears := ageYears;
      this.ageUnit := ageUnit;
      this.sex := sex;
      createdAt := now;
      medicalHistory := [];
      knownAllergies := [];
    }

    function Identity(): BaseTypes.EntityIdentity {
      BaseTypes.EntityIdentity("Patient", id)
    }

    /** Appends one entry; duplicates are kept. */
    method AddMedicalCondition(condition: KnownCondition)
      modifies this`medicalHistory
      ensures medicalHistory == old(medicalHistory) + [condition]
      ensures knownAllergies == old(knownAllergies)
    {
      medicalHistory := medicalHistory + [condition];
    }

    /** Appends one entry; duplicates are kept. */
    method AddAllergy(allergy: Allergy)
      modifies this`knownAllergies
      ensures knownAllergies == old(knownAllergies) + [allergy]
      ensures medicalHistory == old(medicalHistory)
    {
      knownAllergies := knownAllergies + [allergy];
    }
  }

  /** Adding the same condition twice records it twice: there is no de-duplication. */
  method AddConditionTwice(p: Patient, condition: KnownCondition)
    modifies p
    ensures |p.medicalHistory| == |old(p.medicalHistory)| + 2
    ensures p.medicalHistory[|p.medicalHistory| - 2] == condition
    ensures p.medicalHistory[|p.medicalHistory| - 1] == condition
    ensures p.knownAllergies == old(p.knownAllergies)
  {
    p.AddMedicalCondition(condition);
    p.AddMedicalCondition(condition);
  }
}
