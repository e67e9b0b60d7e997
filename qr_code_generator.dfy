/** The QR code generator: the fields of a (partial) prescription that go
    into the QR payload, the download file name, the generate button, and
    the one-way `qrGenerated` flag. */
module QRCode {
  import opened Wrappers
  import opened Types

  /** The payload object before serialisation. A missing optional field is
      dropped by the serialiser, so `None` here is "absent from the JSON".
      `date` is the clock reading taken when the payload is built. */
  datatype QrPayload = QrPayload(
    id: string,
    medication: Option<string>,
    dosage: Option<string>,
    patient: Option<string>,
    doctor: Option<string>,
    date: string)

  /** A present, non-empty string (JavaScript truthiness of an optional string). */
  predicate Truthy(s: Option<string>) {
    s.Some? && s.value != ""
  }

  /** `prescription?.id || fallback`. */
  function IdOr(prescription: Option<PartialPrescription>, fallback: string): (r: string)
    ensures prescription.Some? && Truthy(prescription.value.id) ==> r == prescription.value.id.value
    ensures !(prescription.Some? && Truthy(prescription.value.id)) ==> r == fallback
  {
    if prescription.Some? && Truthy(prescription.value.id) then prescription.value.id.value else fallback
  }

  /** The payload: the prescription id or `'temp-id'`, and the medication
      name, dosage, patient id and doctor name under their payload names. */
  function Payload(prescription: Option<PartialPrescription>, now: string): (q: QrPayload)
    ensures q.id == IdOr(prescription, "temp-id") && q.id != ""
    ensures q.date == now
    ensures prescription.Some? ==>
              (q.medication == prescription.value.medicationName && q.dosage == prescription.value.dosage
               && q.patient == prescription.value.patientId && q.doctor == prescription.value.doctorName)
    ensures prescription.None? ==> q == QrPayload("temp-id", None, None, None, None, now)
  {
    var id := IdOr(prescription, "temp-id");
    match prescription
    case None => QrPayload(id, None, None, None, None, now)
    case Some(p) => QrPayload(id, p.medicationName, p.dosage, p.patientId, p.doctorName, now)
  }

  /** Only the id, medication name, dosage, patient id and doctor name reach
      the payload: instructions, medication id, doctor id and every other
      property leave it unchanged. */
  lemma PayloadIgnoresOtherFields(p1: PartialPrescription, p2: PartialPrescription, now: string)
    requires p1.id == p2.id && p1.medicationName == p2.medicationName && p1.dosage == p2.dosage
    requires p1.patientId == p2.patientId && p1.doctorName == p2.doctorName
    ensures Payload(Some(p1), now) == Payload(Some(p2), now)
  {
  }

  /** For a complete prescription the payload carries its own id, medication
      name, dosage, patient id and doctor name. */
  lemma PayloadOfCompletePrescription(p: Prescription, now: string)
    requires p.id != ""
    ensures Payload(Some(ToPartial(p)), now)
         == QrPayload(p.id, Some(p.medicationName), Some(p.dosage), Some(p.patientId), Some(p.doctorName), now)
  {
  }

  /** The download name: `prescription-<id>.png`, with `'new'` for a missing
      or empty id. */
  function DownloadFileName(prescription: Option<PartialPrescription>): (name: string)
    ensures |name| > 17 && name[..13] == "prescription-" && name[|name| - 4..] == ".png"
    ensures name[13..|name| - 4] == IdOr(prescription, "new")
  {
    "prescription-" + IdOr(prescription, "new") + ".png"
  }

  /** Different ids give different file names. */
  lemma DownloadNamesDistinct(p1: Option<PartialPrescription>, p2: Option<PartialPrescription>)
    requires IdOr(p1, "new") != IdOr(p2, "new")
    ensures DownloadFileName(p1) != DownloadFileName(p2)
  {
  }

  /** The payload and the file name fall back differently for a prescription
      without an id. */
  lemma FallbacksDiffer(p: PartialPrescription, now: string)
    requires p.id.None?
    ensures Payload(Some(p), now).id == "temp-id"
    ensures DownloadFileName(Some(p)) == "prescription-new.png"
  {
  }

  /** The generate button is enabled when not generating and the
      prescription has a non-empty medication name. */
  predicate GenerateEnabled(prescription: Option<PartialPrescription>, isGenerating: bool): (enabled: bool)
    ensures enabled ==> !isGenerating && prescription.Some?
    ensures prescription.Some? && !isGenerating ==>
              (enabled <==> prescription.value.medicationName.Some? && prescription.value.medicationName.value != "")
  {
    !isGenerating && prescription.Some? && Truthy(prescription.value.medicationName)
  }

  /** The component's one state field. */
  class QRCodeGenerator {
    var qrGenerated: bool

    constructor ()
      ensures !qrGenerated
    {
      qrGenerated := false;
    }

    /** `handleGenerate` once its delay has elapsed: the flag is set, and no
        method ever clears it. */
    method Generate()
      modifies this
      ensures qrGenerated
    {
      qrGenerated := true;
    }
  }
}
