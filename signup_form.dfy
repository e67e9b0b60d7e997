/** The signup form: its validation schema and the three-flag state machine
    of license verification (code sent, code verified, submission). */
module Signup {
  import opened Wrappers

  /** The form's values; the verification code is optional. */
  datatype SignupValues = SignupValues(
    name: string,
    email: string,
    licenseId: string,
    verificationCode: Option<string>)

  /** The form's initial values: every field an empty string. */
  const DefaultValues: SignupValues := SignupValues("", "", "", Some(""))

  /** The schema's rules, in declaration order. */
  datatype SchemaError = NameTooShort | InvalidEmail | LicenseTooShort | CodeWrongLength

  const NameMessage: string := "Name must be at least 2 characters long"
  const EmailMessage: string := "Please enter a valid email address"
  const LicenseMessage: string := "License ID must be at least 5 characters long"
  const CodeMessage: string := "Verification code must be 6 digits"

  /** The message shown under the field a rule belongs to. */
  function ErrorMessage(e: SchemaError): (message: string)
    ensures message != ""
  {
    match e
    case NameTooShort => NameMessage
    case InvalidEmail => EmailMessage
    case LicenseTooShort => LicenseMessage
    case CodeWrongLength => CodeMessage
  }

  /** Each rule has its own message, so a message names the rule broken. */
  lemma ErrorMessagesDistinct()
    ensures forall a, b :: ErrorMessage(a) == ErrorMessage(b) ==> a == b
  {
    assert |NameMessage| == 39 && |EmailMessage| == 34 && |LicenseMessage| == 45 && |CodeMessage| == 34;
    assert EmailMessage[32] == 's' && CodeMessage[32] == 't';
  }

  /** The schema's verdict: the list of rules the values break. `isEmail`
      stands for the schema library's e-mail check. The values pass exactly
      when the name has at least 2 characters, the e-mail is accepted, the
      license id has at least 5 characters, and the code is absent or has
      exactly 6 characters. */
  function SchemaErrors(v: SignupValues, isEmail: string -> bool): (errors: seq<SchemaError>)
    ensures errors == [] <==> (|v.name| >= 2 && isEmail(v.email) && |v.licenseId| >= 5
                               && (v.verificationCode.None? || |v.verificationCode.value| == 6))
    ensures NameTooShort in errors <==> |v.name| < 2
    ensures InvalidEmail in errors <==> !isEmail(v.email)
    ensures LicenseTooShort in errors <==> |v.licenseId| < 5
    ensures CodeWrongLength in errors <==> (v.verificationCode.Some? && |v.verificationCode.value| != 6)
  {
    (if |v.name| < 2 then [NameTooShort] else [])
    + (if !isEmail(v.email) then [InvalidEmail] else [])
    + (if |v.licenseId| < 5 then [LicenseTooShort] else [])
    + (match v.verificationCode
       case Some(c) => if |c| != 6 then [CodeWrongLength] else []
       case None => [])
  }

  /** The initial values break every rule: in particular the empty code is a
      present string of the wrong length, not an absent one. */
  lemma DefaultsBreakEveryRule(isEmail: string -> bool)
    requires !isEmail("")
    ensures SchemaErrors(DefaultValues, isEmail) == [NameTooShort, InvalidEmail, LicenseTooShort, CodeWrongLength]
  {
  }

  /** What submitting the form leads to. */
  datatype SubmitOutcome =
    | Invalid(errors: seq<SchemaError>)  // the schema refuses: the handler is not run
    | VerificationRequired               // the handler refuses: license not verified
    | Registering                        // the simulated registration has started

  /** The form's state. */
  class SignupForm {
    var values: SignupValues
    var isLoading: bool
    var verificationSent: bool
    var verificationComplete: bool

    /** A code can only have been verified after it was sent, and only
        through the verify button, which needs a code of six characters;
        the code entry is gone once verified, so that code stays. */
    ghost predicate Valid()
      reads this
    {
      verificationComplete ==>
        verificationSent && values.verificationCode.Some? && |values.verificationCode.value| == 6
    }

    constructor ()
      ensures Valid()
      ensures values == DefaultValues && !isLoading && !verificationSent && !verificationComplete
    {
      values := DefaultValues;
      isLoading := false;
      verificationSent := false;
      verificationComplete := false;
    }

    /** The license input is disabled while loading and from the moment a
        code has been sent. */
    function LicenseLocked(): bool
      reads this
    {
      isLoading || verificationSent
    }

    /** Typing a name: ignored while loading, when the input is disabled. */
    method SetName(v: string)
      requires Valid()
      modifies this`values
      ensures Valid()
      ensures values == if isLoading then old(values) else old(values).(name := v)
    {
      if !isLoading {
        values := values.(name := v);
      }
    }

    /** Typing an e-mail: ignored while loading, when the input is disabled. */
    method SetEmail(v: string)
      requires Valid()
      modifies this`values
      ensures Valid()
      ensures values == if isLoading then old(values) else old(values).(email := v)
    {
      if !isLoading {
        values := values.(email := v);
      }
    }

    /** Typing in the license input: ignored while the input is locked. */
    method SetLicenseId(v: string)
      requires Valid()
      modifies this`values
      ensures Valid()
      ensures values == if old(LicenseLocked()) then old(values) else old(values).(licenseId := v)
    {
      if !LicenseLocked() {
        values := values.(licenseId := v);
      }
    }

    /** Typing a code: the entry exists only between sending and verifying,
        holds at most six characters, and is ignored while loading, when it
        is disabled. */
    method SetVerificationCode(c: string)
      requires Valid() && |c| <= 6
      modifies this`values
      ensures Valid()
      ensures values == if old(isLoading) || !old(CodeEntryShown()) then old(values)
                        else old(values).(verificationCode := Some(c))
    {
      if !isLoading && CodeEntryShown() {
        values := values.(verificationCode := Some(c));
      }
    }

    /** `sendVerificationCode` up to its delay, reachable only from its
        button, which is shown until a code is sent and disabled while
        loading: refused, with nothing changed, unless both the license id
        and the e-mail are filled in; otherwise loading starts. */
    method BeginSendCode() returns (accepted: bool)
      requires Valid() && !verificationSent && !isLoading
      modifies this
      ensures Valid()
      ensures accepted <==> (values.licenseId != "" && values.email != "")
      ensures !accepted ==> unchanged(this)
      ensures accepted ==> isLoading
      ensures values == old(values) && verificationSent == old(verificationSent)
      ensures verificationComplete == old(verificationComplete)
    {
      accepted := values.licenseId != "" && values.email != "";
      if accepted {
        isLoading := true;
      }
    }

    /** The end of `sendVerificationCode`: the code counts as sent. */
    method EndSendCode()
      requires Valid()
      modifies this
      ensures Valid()
      ensures verificationSent && !isLoading
      ensures verificationComplete == old(verificationComplete) && values == old(values)
    {
      verificationSent := true;
      isLoading := false;
    }

    /** The verify button: enabled when not loading and the code has
        exactly 6 characters. */
    function VerifyCodeEnabled(): (enabled: bool)
      reads this
      ensures enabled <==> !isLoading && values.verificationCode.Some? && |values.verificationCode.value| == 6
    {
      !isLoading && values.verificationCode.Some? && |values.verificationCode.value| == 6
    }

    /** The code entry (and its verify button) is offered only between
        sending and verifying. */
    function CodeEntryShown(): (shown: bool)
      reads this
      ensures shown <==> verificationSent && !verificationComplete
    {
      verificationSent && !verificationComplete
    }

    /** `verifyCode` up to its delay, reachable only from the verify button:
        the code entry is shown and the button enabled. */
    method BeginVerifyCode()
      requires Valid() && CodeEntryShown() && VerifyCodeEnabled()
      modifies this
      ensures Valid()
      ensures isLoading
      ensures verificationSent && !verificationComplete && values == old(values)
      ensures values.verificationCode.Some? && |values.verificationCode.value| == 6
    {
      isLoading := true;
    }

    /** The end of `verifyCode`: verification completes for any code of six
        characters; the code itself is never checked against anything. The
        entry is disabled while loading, so the code is still the one the
        button accepted. */
    method EndVerifyCode()
      requires Valid() && verificationSent
      requires values.verificationCode.Some? && |values.verificationCode.value| == 6
      modifies this
      ensures Valid()
      ensures verificationComplete && verificationSent && !isLoading
      ensures values == old(values)
    {
      verificationComplete := true;
      isLoading := false;
    }

    /** The submit button: enabled when not loading and verified. */
    function SubmitEnabled(): (enabled: bool)
      reads this
      ensures enabled <==> !isLoading && verificationComplete
    {
      !isLoading && verificationComplete
    }

    /** Submitting up to the registration delay: the schema is checked
        first, then the handler refuses unless verification is complete;
        either refusal changes nothing. */
    method BeginSubmit(isEmail: string -> bool) returns (outcome: SubmitOutcome)
      requires Valid()
      modifies this
      ensures Valid()
      ensures SchemaErrors(values, isEmail) != [] ==> outcome == Invalid(SchemaErrors(values, isEmail))
      ensures SchemaErrors(values, isEmail) == [] && !verificationComplete ==> outcome == VerificationRequired
      ensures SchemaErrors(values, isEmail) == [] && verificationComplete ==> outcome == Registering && isLoading
      ensures verificationComplete ==> CodeWrongLength !in SchemaErrors(values, isEmail)
      ensures !outcome.Registering? ==> unchanged(this)
      ensures values == old(values) && verificationSent == old(verificationSent)
      ensures verificationComplete == old(verificationComplete)
    {
      var errors := SchemaErrors(values, isEmail);
      if errors != [] {
        return Invalid(errors);
      }
      if !verificationComplete {
        return VerificationRequired;
      }
      isLoading := true;
      outcome := Registering;
    }

    /** The end of the registration (its `finally`): loading stops. */
    method EndSubmit()
      requires Valid()
      modifies this
      ensures Valid()
      ensures !isLoading
      ensures values == old(values) && verificationSent == old(verificationSent)
      ensures verificationComplete == old(verificationComplete)
    {
      isLoading := false;
    }
  }

  /** The verify button is enabled exactly when, outside loading, a code is
      entered that the schema's code rule accepts. It is the only check a
      code gets: verifying accepts whatever code was entered. */
  lemma VerifyButtonMatchesCodeRule(f: SignupForm, isEmail: string -> bool)
    ensures f.VerifyCodeEnabled() <==>
            !f.isLoading && f.values.verificationCode.Some? && CodeWrongLength !in SchemaErrors(f.values, isEmail)
  {
  }

  /** A verified form never fails the schema's code rule: the code that
      was verified is the code that is submitted. */
  lemma VerifiedCodePassesRule(f: SignupForm, isEmail: string -> bool)
    requires f.Valid() && f.verificationComplete
    ensures CodeWrongLength !in SchemaErrors(f.values, isEmail)
  {
  }

  /** The steps come in order: while the code entry is shown the form cannot
      be submitted, and a form that can be submitted has had its code sent. */
  lemma StepsInOrder(f: SignupForm)
    requires f.Valid()
    ensures f.CodeEntryShown() ==> !f.SubmitEnabled()
    ensures f.SubmitEnabled() ==> f.verificationSent && !f.CodeEntryShown()
  {
  }
}
