/** The shared records of the dashboard (the TypeScript interfaces of the
    types file). String-literal unions become enumerations, optional
    properties become `Option`, numbers become naturals. */
module Types {
  import opened Wrappers

  /** `UserRole`: exactly one of four roles. */
  datatype Role = Doctor | Admin | Staff | Unauthorized

  /** A license verification status: `'verified' | 'pending' | 'expired'`. */
  datatype VerificationStatus = Verified | Pending | Expired

  function StatusName(s: VerificationStatus): string {
    match s
    case Verified => "verified"
    case Pending => "pending"
    case Expired => "expired"
  }

  /** A prescription's lifecycle status: `'active' | 'completed' | 'cancelled'`. */
  datatype PrescriptionStatus = Active | Completed | Cancelled

  /** `User`: `isVerified` is mandatory and independent of the optional
      `verificationStatus`. */
  datatype User = User(
    id: string,
    name: string,
    email: string,
    role: Role,
    isVerified: bool,
    licenseId: Option<string>,
    verificationStatus: Option<VerificationStatus>)

  datatype MedicalRecord = MedicalRecord(
    id: string,
    date: string,
    doctorId: string,
    doctorName: string,
    diagnosis: string,
    notes: string,
    treatment: string)

  /** The optional reference dose of a medication; `perWeight` may itself be absent. */
  datatype ReferenceDose = ReferenceDose(min: nat, max: nat, unit: string, perWeight: Option<bool>)

  datatype Medication = Medication(
    id: string,
    name: string,
    genericName: string,
    form: string,
    strength: string,
    manufacturer: string,
    referenceDose: Option<ReferenceDose>)

  /** A complete `Prescription` always carries a status. */
  datatype Prescription = Prescription(
    id: string,
    patientId: string,
    doctorId: string,
    doctorName: string,
    medicationId: string,
    medicationName: string,
    dosage: string,
    frequency: string,
    duration: string,
    instructions: string,
    dateCreated: string,
    expiryDate: string,
    status: PrescriptionStatus,
    qrCodeUrl: Option<string>)

  /** `Partial<Prescription>`: every property may be missing. */
  datatype PartialPrescription = PartialPrescription(
    id: Option<string>,
    patientId: Option<string>,
    doctorId: Option<string>,
    doctorName: Option<string>,
    medicationId: Option<string>,
    medicationName: Option<string>,
    dosage: Option<string>,
    frequency: Option<string>,
    duration: Option<string>,
    instructions: Option<string>,
    dateCreated: Option<string>,
    expiryDate: Option<string>,
    status: Option<PrescriptionStatus>,
    qrCodeUrl: Option<string>)

  /** A complete prescription seen as a partial one: every property present. */
  function ToPartial(p: Prescription): (q: PartialPrescription)
    ensures q.id == Some(p.id) && q.patientId == Some(p.patientId)
    ensures q.medicationName == Some(p.medicationName) && q.dosage == Some(p.dosage)
    ensures q.doctorName == Some(p.doctorName) && q.status == Some(p.status)
  {
    PartialPrescription(
      Some(p.id), Some(p.patientId), Some(p.doctorId), Some(p.doctorName),
      Some(p.medicationId), Some(p.medicationName), Some(p.dosage),
      Some(p.frequency), Some(p.duration), Some(p.instructions),
      Some(p.dateCreated), Some(p.expiryDate), Some(p.status), p.qrCodeUrl)
  }

  /** `Patient`: allergies, history and active prescriptions are ordered lists. */
  datatype Patient = Patient(
    id: string,
    name: string,
    dob: string,
    gender: string,
    phone: string,
    weight: Option<nat>,
    height: Option<nat>,
    allergies: seq<string>,
    medicalHistory: seq<MedicalRecord>,
    activePrescriptions: seq<Prescription>)

  /** The `DoctorVerification` record. */
  datatype LicenseRecord = LicenseRecord(
    doctorId: string,
    licenseId: string,
    status: VerificationStatus,
    dateVerified: Option<string>,
    expiryDate: Option<string>,
    verifier: Option<string>)

  datatype AuditLog = AuditLog(
    id: string,
    userId: string,
    userName: string,
    action: string,
    resourceType: string,
    resourceId: string,
    details: string,
    timestamp: string)

  datatype MonthCount = MonthCount(month: string, count: nat)

  datatype MedicationCount = MedicationCount(medication: string, count: nat)

  datatype StatusCount = StatusCount(status: VerificationStatus, count: nat)

  datatype AnalyticsData = AnalyticsData(
    prescriptionsPerMonth: seq<MonthCount>,
    commonMedications: seq<MedicationCount>,
    verificationStats: seq<StatusCount>)
}
