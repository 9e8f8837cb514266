/** Registration validation and the two professional serializers
    (backend/professionals/serializers.py). */
module Serializers {
  import opened Text
  import opened Wrappers
  import opened Models

  /** The re-registration window of `validate_cpf`, in seconds. */
  const NinetyDays: int := 90 * 86400

  /** The consent_given value as it reaches the serializer: absent, JSON null, or a boolean. */
  datatype ConsentInput = ConsentMissing | ConsentNull | ConsentValue(given: bool)

  /** A text value as it reaches the serializer: absent, JSON null, or a string. */
  datatype TextInput = TextMissing | TextNull | Text(value: string)

  /** What a field error says. */
  datatype ErrorCode =
    | Required
    | MayNotBeNull
    | MayNotBeBlank
    | TooLong(maxLength: nat)
    | NullCharacter
    | InvalidEmail
    | ConsentNotGiven
    | RecentlyRegistered

  /** A field error, with the name of the field it is reported on. */
  datatype FieldError = FieldError(field: string, code: ErrorCode)

  /** The consent_given field: required and non-null by its field options, then
      `validate_consent_given`, which lets only True through. */
  function ValidateConsent(input: ConsentInput): (r: Result<bool, FieldError>)
    ensures r.Ok? <==> input == ConsentValue(true)
    ensures r.Ok? ==> r.value
  {
    match input
    case ConsentMissing => Err(FieldError("consent_given", Required))
    case ConsentNull => Err(FieldError("consent_given", MayNotBeNull))
    case ConsentValue(b) => if b then Ok(b) else Err(FieldError("consent_given", ConsentNotGiven))
  }

  // ---------------------------------------------------------------------------
  // The text fields backed by the model's CharFields

  const NameMaxLength: nat := 255
  const CpfMaxLength: nat := 11
  const EmailMaxLength: nat := 254
  const PhoneMaxLength: nat := 20

  /** A text value the serializer's CharField lets through: present, with something other than
      whitespace, and, once trimmed, within the length limit and free of NUL characters. */
  predicate AcceptableText(input: TextInput, maxLength: nat) {
    input.Text? && Trim(input.value) != "" && |Trim(input.value)| <= maxLength
    && '\0' !in Trim(input.value)
  }

  /** The errors of a CharField derived from a model CharField of the given `max_length`: the
      field is required and not nullable, a blank or all-whitespace value is refused, and the
      length and NUL-character validators run together on the trimmed value. */
  function CharFieldErrors(field: string, input: TextInput, maxLength: nat): (r: set<FieldError>)
    ensures r == {} <==> AcceptableText(input, maxLength)
    ensures forall e :: e in r ==> e.field == field && e.code != RecentlyRegistered
  {
    match input
    case TextMissing => {FieldError(field, Required)}
    case TextNull => {FieldError(field, MayNotBeNull)}
    case Text(s) =>
      var t := Trim(s);
      if t == "" then {FieldError(field, MayNotBeBlank)}
      else (if |t| > maxLength then {FieldError(field, TooLong(maxLength))} else {})
           + (if '\0' in t then {FieldError(field, NullCharacter)} else {})
  }

  /** A stored registration has this cpf and was submitted at most 90 days before `now`. */
  predicate RecentSubmission(records: seq<Professional>, cpf: string, now: Timestamp) {
    exists i :: 0 <= i < |records| && records[i].profile.cpf == Some(cpf)
                && records[i].submissionDate >= now - NinetyDays
  }

  /** `validate_cpf`: the 90-day re-registration block. */
  function ValidateCpf(cpf: string, records: seq<Professional>, now: Timestamp): (r: Result<string, FieldError>)
    ensures r.Ok? ==> r.value == cpf
  {
    if RecentSubmission(records, cpf, now) then Err(FieldError("cpf", RecentlyRegistered)) else Ok(cpf)
  }

  /** A stored registration with the same cpf blocks a new one while it is at most 90 days old,
      the 90th day included, whatever its name or e-mail. */
  lemma {:induction false} RecentRecordBlocks(records: seq<Professional>, k: nat, cpf: string, now: Timestamp)
    requires k < |records| && records[k].profile.cpf == Some(cpf)
    requires records[k].submissionDate >= now - NinetyDays
    ensures ValidateCpf(cpf, records, now) == Err(FieldError("cpf", RecentlyRegistered))
  {
    assert records[k].profile.cpf == Some(cpf);
  }

  /** Registrations older than 90 days (the 91-day-old one of the tests included) never block. */
  lemma {:induction false} OldRecordsDoNotBlock(records: seq<Professional>, cpf: string, now: Timestamp)
    requires forall i :: 0 <= i < |records| && records[i].profile.cpf == Some(cpf) ==>
               records[i].submissionDate < now - NinetyDays
    ensures ValidateCpf(cpf, records, now) == Ok(cpf)
  {
  }

  /** The verdict reads only the cpf and submission date of the stored records: two stores that
      agree on those give the same verdict, whatever names and e-mails they hold. */
  lemma {:induction false} OnlyCpfAndDateMatter(a: seq<Professional>, b: seq<Professional>, cpf: string, now: Timestamp)
    requires |a| == |b|
    requires forall i :: 0 <= i < |a| ==>
               a[i].profile.cpf == b[i].profile.cpf && a[i].submissionDate == b[i].submissionDate
    ensures ValidateCpf(cpf, a, now) == ValidateCpf(cpf, b, now)
  {
    if RecentSubmission(a, cpf, now) {
      var i :| 0 <= i < |a| && a[i].profile.cpf == Some(cpf) && a[i].submissionDate >= now - NinetyDays;
      assert b[i].profile.cpf == Some(cpf) && b[i].submissionDate >= now - NinetyDays;
    }
    if RecentSubmission(b, cpf, now) {
      var i :| 0 <= i < |b| && b[i].profile.cpf == Some(cpf) && b[i].submissionDate >= now - NinetyDays;
      assert a[i].profile.cpf == Some(cpf) && a[i].submissionDate >= now - NinetyDays;
    }
  }

  // ---------------------------------------------------------------------------
  // The whole request

  /** What a registration request carries: the four text fields the model declares as
      CharFields, the verdict of Django's e-mail validator on the trimmed e-mail, the consent
      value, and the remaining fields, taken as submitted. */
  datatype RegistrationInput = RegistrationInput(
    name: TextInput, cpf: TextInput, email: TextInput, phone: TextInput,
    emailWellFormed: bool, consent: ConsentInput, rest: Profile)

  /** What survives validation and reaches `create`. */
  datatype ValidatedData = ValidatedData(profile: Profile, consentGiven: bool)

  /** The errors on the cpf: its CharField checks, and only when they pass, `validate_cpf` on the
      trimmed value. */
  function CpfErrors(input: TextInput, records: seq<Professional>, now: Timestamp): set<FieldError> {
    var errors := CharFieldErrors("cpf", input, CpfMaxLength);
    if errors != {} then errors
    else match ValidateCpf(Trim(input.value), records, now) case Ok(_) => {} case Err(e) => {e}
  }

  /** The errors on the e-mail: its CharField checks and, on a value that is not blank, the
      e-mail validator. */
  function EmailErrors(input: TextInput, wellFormed: bool): set<FieldError> {
    CharFieldErrors("email", input, EmailMaxLength)
    + (if input.Text? && Trim(input.value) != "" && !wellFormed then {FieldError("email", InvalidEmail)} else {})
  }

  /** The field errors of a registration request; DRF reports every failing field at once. */
  function RegistrationErrors(input: RegistrationInput, records: seq<Professional>, now: Timestamp): set<FieldError> {
    CharFieldErrors("name", input.name, NameMaxLength)
    + CpfErrors(input.cpf, records, now)
    + EmailErrors(input.email, input.emailWellFormed)
    + CharFieldErrors("phone", input.phone, PhoneMaxLength)
    + (match ValidateConsent(input.consent) case Ok(_) => {} case Err(e) => {e})
  }

  /** The profile that is saved: the remaining fields, with the four text fields trimmed. */
  function CheckedProfile(input: RegistrationInput): Profile
    requires input.name.Text? && input.cpf.Text? && input.email.Text? && input.phone.Text?
  {
    input.rest.(name := Trim(input.name.value), cpf := Some(Trim(input.cpf.value)),
                email := Trim(input.email.value), phone := Trim(input.phone.value))
  }

  /** `is_valid()` of the registration serializer. */
  function Validate(input: RegistrationInput, records: seq<Professional>, now: Timestamp): (r: Result<ValidatedData, set<FieldError>>)
    ensures r.Err? ==> r.error != {}
    ensures r.Ok? ==> && input.name.Text? && input.cpf.Text? && input.email.Text? && input.phone.Text?
                      && r.value.profile == CheckedProfile(input) && r.value.consentGiven
  {
    var errors := RegistrationErrors(input, records, now);
    if errors == {} then
      assert CharFieldErrors("name", input.name, NameMaxLength) == {};
      assert CharFieldErrors("cpf", input.cpf, CpfMaxLength) == {};
      assert CharFieldErrors("email", input.email, EmailMaxLength) == {};
      assert CharFieldErrors("phone", input.phone, PhoneMaxLength) == {};
      Ok(ValidatedData(CheckedProfile(input), ValidateConsent(input.consent).value))
    else Err(errors)
  }

  /** A registration is accepted exactly when consent is True, the name, cpf, e-mail and phone
      pass their field checks, the e-mail is well formed, and no record with the trimmed cpf was
      submitted in the last 90 days. */
  lemma {:induction false} ValidateAcceptsIff(input: RegistrationInput, records: seq<Professional>, now: Timestamp)
    ensures Validate(input, records, now).Ok? <==>
              && input.consent == ConsentValue(true)
              && AcceptableText(input.name, NameMaxLength)
              && AcceptableText(input.cpf, CpfMaxLength)
              && AcceptableText(input.email, EmailMaxLength) && input.emailWellFormed
              && AcceptableText(input.phone, PhoneMaxLength)
              && !RecentSubmission(records, Trim(input.cpf.value), now)
  {
    var errs := RegistrationErrors(input, records, now);
    if input.consent != ConsentValue(true) {
      assert ValidateConsent(input.consent).error in errs;
    } else if !AcceptableText(input.name, NameMaxLength) {
      var e :| e in CharFieldErrors("name", input.name, NameMaxLength);
      assert e in errs;
    } else if !AcceptableText(input.cpf, CpfMaxLength) {
      var e :| e in CharFieldErrors("cpf", input.cpf, CpfMaxLength);
      assert e in CpfErrors(input.cpf, records, now);
      assert e in errs;
    } else if !AcceptableText(input.email, EmailMaxLength) {
      var e :| e in CharFieldErrors("email", input.email, EmailMaxLength);
      assert e in EmailErrors(input.email, input.emailWellFormed);
      assert e in errs;
    } else if !input.emailWellFormed {
      assert FieldError("email", InvalidEmail) in EmailErrors(input.email, input.emailWellFormed);
      assert FieldError("email", InvalidEmail) in errs;
    } else if !AcceptableText(input.phone, PhoneMaxLength) {
      var e :| e in CharFieldErrors("phone", input.phone, PhoneMaxLength);
      assert e in errs;
    } else if RecentSubmission(records, Trim(input.cpf.value), now) {
      assert FieldError("cpf", RecentlyRegistered) in CpfErrors(input.cpf, records, now);
      assert FieldError("cpf", RecentlyRegistered) in errs;
    } else {
      assert CpfErrors(input.cpf, records, now) == {};
      assert EmailErrors(input.email, input.emailWellFormed) == {};
    }
  }

  /** The errors reported on the cpf are exactly those of its own checks. */
  lemma {:induction false} CpfErrorsReported(input: RegistrationInput, records: seq<Professional>, now: Timestamp)
    ensures forall e :: e in RegistrationErrors(input, records, now) && e.field == "cpf" ==>
              e in CpfErrors(input.cpf, records, now)
    ensures CpfErrors(input.cpf, records, now) <= RegistrationErrors(input, records, now)
  {
  }

  /** The refusal of `is_valid()` reports the request's field errors. */
  lemma ValidateReportsErrors(input: RegistrationInput, records: seq<Professional>, now: Timestamp)
    ensures Validate(input, records, now).Err? <==> RegistrationErrors(input, records, now) != {}
    ensures Validate(input, records, now).Err? ==>
              Validate(input, records, now).error == RegistrationErrors(input, records, now)
  {
  }

  /** A cpf longer than 11 characters once trimmed is refused with a length error, and the 90-day
      rule is not consulted for it. */
  lemma {:induction false} OverlongCpfRefused(input: RegistrationInput, records: seq<Professional>, now: Timestamp)
    requires input.cpf.Text? && |Trim(input.cpf.value)| > CpfMaxLength
    ensures Validate(input, records, now).Err?
    ensures FieldError("cpf", TooLong(CpfMaxLength)) in Validate(input, records, now).error
    ensures FieldError("cpf", RecentlyRegistered) !in Validate(input, records, now).error
  {
    var cpfErrors := CpfErrors(input.cpf, records, now);
    assert cpfErrors == CharFieldErrors("cpf", input.cpf, CpfMaxLength);
    assert FieldError("cpf", TooLong(CpfMaxLength)) in cpfErrors;
    assert FieldError("cpf", RecentlyRegistered) !in cpfErrors;
    CpfErrorsReported(input, records, now);
    ValidateReportsErrors(input, records, now);
  }

  /** An empty cpf is refused as blank. */
  lemma EmptyCpfRefused(input: RegistrationInput, records: seq<Professional>, now: Timestamp)
    requires input.cpf == Text("")
    ensures FieldError("cpf", MayNotBeBlank) in Validate(input, records, now).error
  {
    assert FieldError("cpf", MayNotBeBlank) in CpfErrors(input.cpf, records, now);
    CpfErrorsReported(input, records, now);
    ValidateReportsErrors(input, records, now);
  }

  /** `strip()` drops a leading whitespace character. */
  lemma LeadingSpaceTrimmed(c: char, v: string)
    requires IsPySpace(c)
    ensures Trim([c] + v) == Trim(v)
  {
    assert ([c] + v)[1..] == v;
  }

  /** A CharField's verdict depends on the trimmed value only. */
  lemma SameTrimSameErrors(field: string, s: string, t: string, maxLength: nat)
    requires Trim(s) == Trim(t)
    ensures CharFieldErrors(field, Text(s), maxLength) == CharFieldErrors(field, Text(t), maxLength)
  {
  }

  /** Two cpf values with the same errors leave the request's errors unchanged. */
  lemma SameCpfErrors(input: RegistrationInput, cpf: TextInput, records: seq<Professional>, now: Timestamp)
    requires CpfErrors(cpf, records, now) == CpfErrors(input.cpf, records, now)
    ensures RegistrationErrors(input.(cpf := cpf), records, now) == RegistrationErrors(input, records, now)
  {
  }

  /** Surrounding whitespace is trimmed before anything else: a cpf sent with a leading space
      is checked, and saved, without it. */
  lemma {:induction false} CpfTrimmedFirst(input: RegistrationInput, records: seq<Professional>, now: Timestamp, c: char)
    requires input.cpf.Text? && IsPySpace(c)
    ensures Validate(input.(cpf := Text([c] + input.cpf.value)), records, now) == Validate(input, records, now)
  {
    var spaced := input.(cpf := Text([c] + input.cpf.value));
    LeadingSpaceTrimmed(c, input.cpf.value);
    SameTrimSameErrors("cpf", [c] + input.cpf.value, input.cpf.value, CpfMaxLength);
    assert CpfErrors(spaced.cpf, records, now) == CpfErrors(input.cpf, records, now);
    SameCpfErrors(input, spaced.cpf, records, now);
    if RegistrationErrors(input, records, now) == {} {
      assert Validate(input, records, now).Ok?;
      assert CheckedProfile(spaced) == CheckedProfile(input);
    }
  }

  /** `create`: stamps consent_date with `now` when consent was given, then saves a record whose
      defaulted fields (status, consent flag) take their defaults unless supplied. */
  function Create(data: ValidatedData, id: string, now: Timestamp): (r: Professional)
    ensures r.consentDate == (if data.consentGiven then Some(now) else None)
    ensures r.status == Pending && r.submissionDate == now && r.review == NoReview
    ensures r.profile == data.profile && r.consentGiven == data.consentGiven && r.id == id
  {
    var saved := NewProfessional(id, data.profile, now);
    if data.consentGiven then saved.(consentGiven := true, consentDate := Some(now))
    else saved
  }

  // ---------------------------------------------------------------------------
  // Field sets of the two serializers

  datatype SerializerKind = ProfessionalSerializer | ProfessionalManagementSerializer

  const DeclaredFields: set<string> := {
    "id", "name", "cpf", "email", "phone",
    "birth_date", "address", "education", "institution",
    "graduation_year", "council_name", "council_number",
    "specialty", "experience_years", "area_of_action",
    "status", "submission_date", "documents",
    "consent_given", "consent_date"}

  /** The `read_only_fields` of each serializer's Meta. */
  function ReadOnlyFields(k: SerializerKind): set<string> {
    match k
    case ProfessionalSerializer => {"status", "submission_date", "consent_date"}
    case ProfessionalManagementSerializer => {"submission_date", "consent_date"}
  }

  /** Fields a request may set: the declared ones minus the read-only ones, the non-editable
      primary key and the read-only nested documents. */
  function WritableFields(k: SerializerKind): set<string> {
    DeclaredFields - ReadOnlyFields(k) - {"id", "documents"}
  }

  /** The management serializer differs from the registration one exactly in letting status be
      written; neither ever lets submission_date or consent_date be written, and both accept
      consent_given. */
  lemma WritableFieldSets(k: SerializerKind)
    ensures "status" in WritableFields(k) <==> k == ProfessionalManagementSerializer
    ensures "submission_date" !in WritableFields(k) && "consent_date" !in WritableFields(k)
    ensures "consent_given" in WritableFields(k) && "cpf" in WritableFields(k)
    ensures WritableFields(ProfessionalManagementSerializer) == WritableFields(ProfessionalSerializer) + {"status"}
  {
    assert "status" in DeclaredFields;
  }
}
