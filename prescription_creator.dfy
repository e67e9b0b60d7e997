/** The prescription form: patient id, selected medication, dosage text from
    the calculator and free-text instructions; a presence check; and the
    partial prescription record assembled when the simulated request ends.
    The form and its create button are shown only to verified doctors and
    admins. */
module Prescribing {
  import opened Wrappers
  import opened Types
  import opened Strings
  import opened RoleGate
  import opened Dosage
  import opened QRCode

  /** The roles the form's two gates allow. */
  const PrescriberRoles: seq<Role> := [Doctor, Admin]

  /** Both gates require verification. */
  predicate MaySeeForm(role: Role, isVerified: bool) {
    CanRender(role, isVerified, PrescriberRoles, true)
  }

  /** Only verified doctors and admins see the form and the create button. */
  lemma FormOnlyForVerifiedPrescribers(role: Role, isVerified: bool)
    ensures MaySeeForm(role, isVerified) <==> ((role == Doctor || role == Admin) && isVerified)
  {
  }

  /** The presence check: patient id, a selected medication and a dosage.
      Instructions are not required. */
  predicate HasRequiredFields(patientId: string, medication: Option<Medication>, dosage: string) {
    patientId != "" && medication.Some? && dosage != ""
  }

  /** The values the delayed callback closes over when creation starts. */
  datatype Draft = Draft(
    patientId: string,
    user: Option<User>,
    medication: Medication,
    dosage: string,
    instructions: string)

  /** The record built when creation completes. `idSuffix` stands for the
      random part of the id and `now` for the clock reading. */
  function Assemble(d: Draft, idSuffix: string, now: string): (p: PartialPrescription)
    ensures p.id.Some? && IsPrefix("rx-", p.id.value)
    ensures p.patientId == Some(d.patientId) && p.dosage == Some(d.dosage)
    ensures p.instructions == Some(d.instructions)
    ensures p.medicationId == Some(d.medication.id) && p.medicationName == Some(d.medication.name)
    ensures d.user.Some? ==> p.doctorId == Some(d.user.value.id) && p.doctorName == Some(d.user.value.name)
    ensures d.user.None? ==> p.doctorId.None? && p.doctorName.None?
    ensures p.dateCreated == Some(now)
    ensures p.status.None? && p.frequency.None? && p.duration.None? && p.expiryDate.None?
    ensures p.qrCodeUrl.None?
  {
    var doctorId := if d.user.Some? then Some(d.user.value.id) else None;
    var doctorName := if d.user.Some? then Some(d.user.value.name) else None;
    var id := "rx-" + idSuffix;
    assert id[..3] == "rx-";
    PartialPrescription(
      Some(id), Some(d.patientId), doctorId, doctorName,
      Some(d.medication.id), Some(d.medication.name), Some(d.dosage),
      None, None, Some(d.instructions), Some(now), None, None, None)
  }

  /** A created prescription's QR payload carries its new id and the form's
      medication name, dosage and patient id, and the doctor's name. */
  lemma AssembledPayload(d: Draft, idSuffix: string, now: string, qrNow: string)
    ensures Payload(Some(Assemble(d, idSuffix, now)), qrNow)
         == QrPayload("rx-" + idSuffix, Some(d.medication.name), Some(d.dosage), Some(d.patientId),
                      if d.user.Some? then Some(d.user.value.name) else None, qrNow)
    ensures GenerateEnabled(Some(Assemble(d, idSuffix, now)), false) <==> d.medication.name != ""
  {
  }

  /** The presence check cannot detect a missing dose: when no range can be
      computed, the calculator still hands over a non-empty text, which
      passes the check. */
  lemma PresenceCheckMissesMissingDose(patientId: string, med: Medication, weight: Option<nat>,
                                       frequency: string, duration: string, durationUnit: string)
    requires patientId != ""
    requires ComputeRange(Some(med), weight).None?
    ensures RangeText(Some(med), weight) == ""
    ensures HasRequiredFields(patientId, Some(med),
                              DosageText(RangeText(Some(med), weight), frequency, duration, durationUnit))
  {
  }

  /** The form's state. */
  class PrescriptionCreator {
    var patientId: string
    var selectedMedication: Option<Medication>
    var dosage: string
    var instructions: string
    var patientWeight: Option<nat>
    var isCreating: bool
    var isGeneratingQR: bool
    var prescription: Option<PartialPrescription>

    constructor ()
      ensures patientId == "" && selectedMedication.None? && dosage == "" && instructions == ""
      ensures patientWeight.None? && !isCreating && !isGeneratingQR && prescription.None?
    {
      patientId := "";
      selectedMedication := None;
      dosage := "";
      instructions := "";
      patientWeight := None;
      isCreating := false;
      isGeneratingQR := false;
      prescription := None;
    }

    method SetPatientId(v: string)
      modifies this`patientId
      ensures patientId == v
    {
      patientId := v;
    }

    /** The weight input, restricted to naturals. */
    method SetPatientWeight(w: nat)
      modifies this`patientWeight
      ensures patientWeight == Some(w)
    {
      patientWeight := Some(w);
    }

    method SetInstructions(v: string)
      modifies this`instructions
      ensures instructions == v
    {
      instructions := v;
    }

    /** `handleSelectMedication` (`None` when the picker's clear button is
        used): only the selection changes; a dosage computed for the previous
        medication is kept. */
    method SelectMedication(medication: Option<Medication>)
      modifies this
      ensures selectedMedication == medication
      ensures dosage == old(dosage) && patientId == old(patientId) && instructions == old(instructions)
      ensures patientWeight == old(patientWeight) && isCreating == old(isCreating)
      ensures isGeneratingQR == old(isGeneratingQR) && prescription == old(prescription)
    {
      selectedMedication := medication;
    }

    /** `handleDosageCalculated`: the calculator's text becomes the dosage. */
    method DosageCalculated(calculatedDosage: string)
      modifies this`dosage
      ensures dosage == calculatedDosage
    {
      dosage := calculatedDosage;
    }

    /** `handleCreatePrescription` up to its delay. A missing patient id,
        medication or dosage rejects the request and changes nothing;
        otherwise the form is marked as creating and the values the
        callback will use are returned. */
    method StartCreate(user: Option<User>) returns (pending: Option<Draft>)
      modifies this
      ensures patientId == old(patientId) && selectedMedication == old(selectedMedication)
      ensures dosage == old(dosage) && instructions == old(instructions)
      ensures patientWeight == old(patientWeight) && isGeneratingQR == old(isGeneratingQR)
      ensures prescription == old(prescription)
      ensures !HasRequiredFields(patientId, selectedMedication, dosage)
              ==> pending.None? && unchanged(this)
      ensures HasRequiredFields(patientId, selectedMedication, dosage)
              ==> pending == Some(Draft(patientId, user, selectedMedication.value, dosage, instructions))
                  && isCreating
    {
      if !HasRequiredFields(patientId, selectedMedication, dosage) {
        return None;
      }
      isCreating := true;
      pending := Some(Draft(patientId, user, selectedMedication.value, dosage, instructions));
    }

    /** The delayed callback of `handleCreatePrescription`: the assembled
        record is stored and creation ends. */
    method FinishCreate(d: Draft, idSuffix: string, now: string)
      modifies this
      ensures prescription == Some(Assemble(d, idSuffix, now)) && !isCreating
      ensures patientId == old(patientId) && selectedMedication == old(selectedMedication)
      ensures dosage == old(dosage) && instructions == old(instructions)
      ensures patientWeight == old(patientWeight) && isGeneratingQR == old(isGeneratingQR)
    {
      prescription := Some(Assemble(d, idSuffix, now));
      isCreating := false;
    }

    /** `handleGenerateQR`: the flag is set and never cleared again. */
    method GenerateQR()
      modifies this`isGeneratingQR
      ensures isGeneratingQR
    {
      isGeneratingQR := true;
    }

    /** The create button is enabled exactly when the presence check passes
        and no creation is in progress. */
    function CreateEnabled(): (enabled: bool)
      reads this
      ensures enabled <==> HasRequiredFields(patientId, selectedMedication, dosage) && !isCreating
    {
      !(patientId == "" || selectedMedication.None? || dosage == "" || isCreating)
    }
  }
}
