/** License verification: the license id guard, the status transition of a
    (simulated) verification run, the texts shown for each status, and the
    resource label of the audit log. */
module LicenseVerification {
  import opened Wrappers
  import opened Types
  import opened Strings

  /** `s.charAt(0).toUpperCase() + s.slice(1)`. */
  function Capitalize(s: string): (r: string)
    ensures |r| == |s| && (s != [] ==> r[1..] == s[1..] && r[0] == UpperChar(s[0]))
  {
    if s == [] then [] else [UpperChar(s[0])] + s[1..]
  }

  /** The badge text: the status capitalised, or "Not Verified". */
  function StatusLabel(status: Option<VerificationStatus>): (text: string)
    ensures text != ""
    ensures status.None? ==> text == "Not Verified"
    ensures status.Some? ==> |text| == |StatusName(status.value)| && text[1..] == StatusName(status.value)[1..]
  {
    match status
    case Some(s) => Capitalize(StatusName(s))
    case None => "Not Verified"
  }

  /** The badge names each status distinctly, so it tells them apart. */
  lemma StatusLabels()
    ensures StatusLabel(Some(Verified)) == "Verified"
    ensures StatusLabel(Some(Pending)) == "Pending"
    ensures StatusLabel(Some(Expired)) == "Expired"
    ensures forall a, b :: StatusLabel(a) == StatusLabel(b) ==> a == b
  {
    assert StatusName(Verified) == "verified";
    assert StatusName(Pending) == "pending";
    assert StatusName(Expired) == "expired";
    assert "Verified"[0] != "Not Verified"[0] && "Pending"[0] != "Not Verified"[0];
    assert "Expired"[0] != "Not Verified"[0];
  }

  const VerifiedMessage: string := "Your medical license has been successfully verified. You have full access to all prescription features."
  const PendingMessage: string := "Your verification is currently being processed. Limited access is provided during this time."
  const ExpiredMessage: string := "Your medical license verification has expired. Please renew your verification."
  const UnverifiedMessage: string := "Please verify your medical license to gain access to prescription features."

  /** The explanatory text under the badge: one message per status. */
  function StatusMessage(status: Option<VerificationStatus>): (message: string)
    ensures message in {VerifiedMessage, PendingMessage, ExpiredMessage, UnverifiedMessage}
    ensures status.None? <==> message == UnverifiedMessage
  {
    match status
    case Some(Verified) => VerifiedMessage
    case Some(Pending) => PendingMessage
    case Some(Expired) => ExpiredMessage
    case None => UnverifiedMessage
  }

  /** No two statuses share a message. */
  lemma StatusMessagesDistinct()
    ensures forall a, b :: StatusMessage(a) == StatusMessage(b) ==> a == b
  {
    assert |VerifiedMessage| == 103 && |PendingMessage| == 92;
    assert |ExpiredMessage| == 78 && |UnverifiedMessage| == 75;
  }

  /** The badge style and the icon: verified, pending, and everything else
      (expired or no status) drawn as a failure. */
  datatype Badge = Default | Outline | Destructive | Secondary
  datatype Icon = CheckIcon | ClockIcon | AlertIcon

  function StatusBadge(status: Option<VerificationStatus>): (b: Badge)
    ensures b == Default <==> status == Some(Verified)
    ensures b == Outline <==> status == Some(Pending)
    ensures b == Destructive <==> status != Some(Verified) && status != Some(Pending)
    ensures b != Secondary
  {
    if status == Some(Verified) then Default
    else if status == Some(Pending) then Outline
    else Destructive
  }

  function StatusIcon(status: Option<VerificationStatus>): (i: Icon)
    ensures i == CheckIcon <==> status == Some(Verified)
    ensures i == ClockIcon <==> status == Some(Pending)
    ensures i == AlertIcon <==> status != Some(Verified) && status != Some(Pending)
  {
    if status == Some(Verified) then CheckIcon
    else if status == Some(Pending) then ClockIcon
    else AlertIcon
  }

  /** The icon and the badge tell the same story: the check mark goes with
      the default badge, the clock with the outline badge, and the alert with
      the destructive badge, which an expired and a missing status share. */
  lemma IconMatchesBadge(status: Option<VerificationStatus>)
    ensures StatusIcon(status) == CheckIcon <==> StatusBadge(status) == Default
    ensures StatusIcon(status) == ClockIcon <==> StatusBadge(status) == Outline
    ensures StatusIcon(status) == AlertIcon <==> StatusBadge(status) == Destructive
    ensures StatusBadge(Some(Expired)) == StatusBadge(None)
  {
  }

  /** The component's state. */
  class DoctorVerification {
    var licenseId: string
    var isVerifying: bool
    var verificationStatus: Option<VerificationStatus>

    /** Seeded from the signed-in user's license id (or empty) and status. */
    constructor (user: Option<User>)
      ensures licenseId == (if user.Some? then user.value.licenseId.GetOr("") else "")
      ensures verificationStatus == (if user.Some? then user.value.verificationStatus else None)
      ensures !isVerifying
    {
      licenseId := if user.Some? then user.value.licenseId.GetOr("") else "";
      verificationStatus := if user.Some? then user.value.verificationStatus else None;
      isVerifying := false;
    }

    method SetLicenseId(v: string)
      modifies this`licenseId
      ensures licenseId == v
    {
      licenseId := v;
    }

    /** `handleVerify` up to its delay: a blank license id is refused and
        nothing changes; otherwise verifying starts. */
    method BeginVerify() returns (started: bool)
      modifies this
      ensures started <==> !IsBlank(licenseId)
      ensures !started ==> unchanged(this)
      ensures started ==> isVerifying
      ensures licenseId == old(licenseId) && verificationStatus == old(verificationStatus)
    {
      TrimEmptyIffBlank(licenseId);
      if Trim(licenseId) == "" {
        return false;
      }
      isVerifying := true;
      started := true;
    }

    /** The delayed end of `handleVerify`: `newStatus` stands for the status
        the service picks (one of the three); verifying stops. */
    method EndVerify(newStatus: VerificationStatus)
      modifies this
      ensures verificationStatus == Some(newStatus) && !isVerifying
      ensures licenseId == old(licenseId)
    {
      verificationStatus := Some(newStatus);
      isVerifying := false;
    }

    /** The verify button: disabled while verifying or for a blank id. */
    function VerifyEnabled(): (enabled: bool)
      reads this
      ensures enabled <==> !isVerifying && !IsBlank(licenseId)
    {
      TrimEmptyIffBlank(licenseId);
      !(isVerifying || Trim(licenseId) == "")
    }
  }

  const MockAuditLogs: seq<AuditLog> := [
    AuditLog("log-001", "doc-123", "Dr. Jane Smith", "Created", "Prescription", "rx-001",
             "Created new prescription for John Smith (Lisinopril 10mg daily)", "2023-06-15T14:32:00Z"),
    AuditLog("log-002", "doc-123", "Dr. Jane Smith", "Updated", "Prescription", "rx-001",
             "Updated dosage from 10mg to 20mg daily", "2023-06-16T10:15:00Z"),
    AuditLog("log-003", "doc-456", "Dr. Michael Chen", "Created", "Prescription", "rx-002",
             "Created new prescription for Sarah Johnson (Albuterol 90mcg as needed)", "2023-06-18T09:45:00Z")
  ]

  /** `resourceId.split('-')[1]`, rendered as text (a missing piece renders
      as nothing). */
  function IdSegment(resourceId: string): string {
    var parts := Split(resourceId, '-');
    if |parts| > 1 then parts[1] else ""
  }

  /** The audit table's resource cell: `<type> #<segment>`. */
  function ResourceLabel(log: AuditLog): (text: string)
    ensures |text| == |log.resourceType| + 2 + |IdSegment(log.resourceId)|
    ensures text[..|log.resourceType|] == log.resourceType
    ensures text[|log.resourceType|..|log.resourceType| + 2] == " #"
    ensures text[|log.resourceType| + 2..] == IdSegment(log.resourceId)
  {
    log.resourceType + " #" + IdSegment(log.resourceId)
  }

  /** The segment is the text between the first and the second dash:
      for `prefix-number` it is the number, and anything after a second dash
      is dropped. */
  lemma IdSegmentOfDashedId(prefix: string, number: string, rest: string)
    requires '-' !in prefix && '-' !in number
    ensures IdSegment(prefix + "-" + number) == number
    ensures IdSegment(prefix + "-" + number + "-" + rest) == number
  {
    SplitAfterPiece(prefix, '-', number);
    SplitWithoutSep(number, '-');
    assert prefix + "-" + number + "-" + rest == prefix + ['-'] + (number + ['-'] + rest);
    SplitAfterPiece(prefix, '-', number + ['-'] + rest);
    SplitAfterPiece(number, '-', rest);
  }

  /** An id without a dash has no segment. */
  lemma IdSegmentWithoutDash(resourceId: string)
    requires '-' !in resourceId
    ensures IdSegment(resourceId) == ""
  {
    SplitWithoutSep(resourceId, '-');
  }

  /** The ids of the mock log's resources, "rx-001" and "rx-002", show as
      "#001" and "#002". */
  lemma MockResourceSegments()
    ensures IdSegment("rx-001") == "001" && IdSegment("rx-002") == "002"
    ensures forall log :: log in MockAuditLogs ==> log.resourceId in {"rx-001", "rx-002"}
  {
    assert "rx-001" == "rx" + "-" + "001" && "rx-002" == "rx" + "-" + "002";
    IdSegmentOfDashedId("rx", "001", "");
    IdSegmentOfDashedId("rx", "002", "");
  }

  /** An audit entry on resource `prefix-number` is labelled `<type> #number`. */
  lemma ResourceLabelOfDashedId(log: AuditLog, prefix: string, number: string)
    requires '-' !in prefix && '-' !in number
    requires log.resourceId == prefix + "-" + number
    ensures ResourceLabel(log) == log.resourceType + " #" + number
  {
    IdSegmentOfDashedId(prefix, number, "");
  }

  /** The first mock entry reads "Prescription #001". */
  lemma MockFirstResourceLabel()
    ensures ResourceLabel(MockAuditLogs[0]) == "Prescription #001"
  {
    var log := MockAuditLogs[0];
    assert log.resourceId == "rx" + "-" + "001";
    ResourceLabelOfDashedId(log, "rx", "001");
    assert log.resourceType + " #" + "001" == "Prescription #001";
  }

  /** The action badge: "Created", "Updated", anything else. */
  function ActionBadge(action: string): (b: Badge)
    ensures b == Default <==> action == "Created"
    ensures b == Outline <==> action == "Updated"
    ensures b == Secondary <==> action != "Created" && action != "Updated"
    ensures b != Destructive
  {
    if action == "Created" then Default
    else if action == "Updated" then Outline
    else Secondary
  }

  /** Every mock log entry is a creation or an update, so none is drawn with
      the catch-all badge. */
  lemma MockActionsHaveOwnBadges()
    ensures forall i :: 0 <= i < |MockAuditLogs| ==> ActionBadge(MockAuditLogs[i].action) != Secondary
  {
  }
}
