/** The professional registration page (frontend/src/pages/Register/index.tsx): the form schema,
    the postal-code autofill, the pre-submit file checks and the submission sequence.
    The address lookup, the backend's answers and the e-mail/date parsers are inputs. */
module Register {
  import opened Text
  import opened Wrappers
  import Models

  // ---------------------------------------------------------------------------
  // Form values and schema

  /** The form's fields as the browser holds them (all text, consent a checkbox). */
  datatype FormData = FormData(
    name: string, cpf: string, email: string, phone: string, birthDate: string,
    zipCode: string, street: string, number: string, complement: Option<string>,
    neighborhood: string, city: string, state: string,
    education: string, customEducation: Option<string>, institution: string,
    graduationYear: string, councilName: string, councilNumber: string,
    areaOfAction: Option<string>, experienceYears: string, consentGiven: bool)

  /** The fields a schema issue can be attached to. */
  datatype FormField =
    | Name | Cpf | Email | Phone | BirthDate | ZipCode | Street | Number | Neighborhood | City
    | State | Education | CustomEducation | Institution | GraduationYear | CouncilName
    | CouncilNumber | ExperienceYears | ConsentGiven

  /** The verdicts of the validation library's e-mail check and of `Date.parse`. */
  datatype LibraryVerdicts = LibraryVerdicts(emailWellFormed: bool, birthDateParses: bool)

  /** JavaScript's string length: characters outside the Basic Multilingual Plane take two
      UTF-16 code units. */
  function Utf16Length(s: string): (n: nat)
    ensures |s| <= n <= 2 * |s|
  {
    if s == [] then 0 else (if s[0] as int >= 0x1_0000 then 2 else 1) + Utf16Length(s[1..])
  }

  /** Text made only of Basic Multilingual Plane characters has one code unit per character. */
  lemma {:induction false} Utf16LengthBmp(s: string)
    requires forall i :: 0 <= i < |s| ==> (s[i] as int) < 0x1_0000
    ensures Utf16Length(s) == |s|
  {
    if s != [] {
      Utf16LengthBmp(s[1..]);
    }
  }

  /** `/^\d{4}$/` */
  predicate FourDigits(s: string) {
    |s| == 4 && All(s, IsAsciiDigit)
  }

  /** `/^\d+$/` */
  predicate Digits(s: string) {
    |s| >= 1 && All(s, IsAsciiDigit)
  }

  /** JavaScript truthiness of an optional text field. */
  predicate Filled(o: Option<string>) {
    o.Some? && o.value != ""
  }

  const AllFields: set<FormField> := {
    Name, Cpf, Email, Phone, BirthDate, ZipCode, Street, Number, Neighborhood, City,
    State, Education, CustomEducation, Institution, GraduationYear, CouncilName,
    CouncilNumber, ExperienceYears, ConsentGiven}

  /** Whether the schema's check on field `f` fails; only the "Outros" rule of `superRefine`
      reads the custom education. */
  predicate CheckFails(d: FormData, lib: LibraryVerdicts, f: FormField) {
    match f
    case Name => Utf16Length(d.name) < 3
    case Cpf => Utf16Length(d.cpf) != 11
    case Email => !lib.emailWellFormed
    case Phone => Utf16Length(d.phone) < 10
    case BirthDate => !lib.birthDateParses
    case ZipCode => Utf16Length(d.zipCode) < 8 || Utf16Length(d.zipCode) > 9
    case Street => Utf16Length(d.street) < 3
    case Number => Utf16Length(d.number) < 1
    case Neighborhood => Utf16Length(d.neighborhood) < 2
    case City => Utf16Length(d.city) < 2
    case State => Utf16Length(d.state) != 2
    case Education => Utf16Length(d.education) < 1
    case CustomEducation => d.education == "Outros" && !Filled(d.customEducation)
    case Institution => Utf16Length(d.institution) < 2
    case GraduationYear => !FourDigits(d.graduationYear)
    case CouncilName => Utf16Length(d.councilName) < 1
    case CouncilNumber => Utf16Length(d.councilNumber) < 1
    case ExperienceYears => !Digits(d.experienceYears)
    case ConsentGiven => !d.consentGiven
  }

  /** The fields the schema reports an issue on. Every field check runs, and the `superRefine`
      rule runs as well, whatever the other fields hold. */
  function FieldIssues(d: FormData, lib: LibraryVerdicts): set<FormField> {
    set f | f in AllFields && CheckFails(d, lib, f)
  }

  /** An accepted form has a name of at least 3 characters, an 11-character CPF (its length is
      all that is checked), a phone of at least 10, an 8- or 9-character postal code, a
      2-character state, a four-digit graduation year, a digits-only experience and consent. */
  lemma {:induction false} AcceptedFormShape(d: FormData, lib: LibraryVerdicts)
    requires FieldIssues(d, lib) == {}
    ensures Utf16Length(d.name) >= 3 && Utf16Length(d.cpf) == 11 && Utf16Length(d.phone) >= 10
    ensures 8 <= Utf16Length(d.zipCode) <= 9 && Utf16Length(d.state) == 2
    ensures FourDigits(d.graduationYear) && Digits(d.experienceYears) && d.consentGiven
    ensures lib.emailWellFormed && lib.birthDateParses
  {
    PassedCheck(d, lib, Name);
    PassedCheck(d, lib, Cpf);
    PassedCheck(d, lib, Phone);
    PassedCheck(d, lib, ZipCode);
    PassedCheck(d, lib, State);
    PassedCheck(d, lib, GraduationYear);
    PassedCheck(d, lib, ExperienceYears);
    PassedCheck(d, lib, ConsentGiven);
    PassedCheck(d, lib, Email);
    PassedCheck(d, lib, BirthDate);
  }

  /** An accepted form passes each field's check. */
  lemma PassedCheck(d: FormData, lib: LibraryVerdicts, f: FormField)
    requires FieldIssues(d, lib) == {}
    ensures !CheckFails(d, lib, f)
  {
    assert f in AllFields;
    assert f !in FieldIssues(d, lib);
  }

  /** The "Outros" rule: an issue on the custom education exactly when "Outros" is chosen and the
      custom education is empty or absent; the custom education affects no other field. */
  lemma {:induction false} CustomEducationRule(d: FormData, lib: LibraryVerdicts, other: Option<string>)
    ensures CustomEducation in FieldIssues(d, lib) <==> d.education == "Outros" && !Filled(d.customEducation)
    ensures FieldIssues(d.(customEducation := other), lib) - {CustomEducation}
            == FieldIssues(d, lib) - {CustomEducation}
  {
    assert CustomEducation in AllFields;
    var e := d.(customEducation := other);
    forall f | f != CustomEducation
      ensures CheckFails(e, lib, f) == CheckFails(d, lib, f)
    {
    }
  }

  /** The CPF check counts code units only: eleven letters pass it. */
  lemma CpfCheckIsLengthOnly(d: FormData, lib: LibraryVerdicts)
    requires d.cpf == "abcdefghijk"
    ensures Cpf !in FieldIssues(d, lib)
  {
    Utf16LengthBmp(d.cpf);
    assert !CheckFails(d, lib, Cpf);
  }

  // ---------------------------------------------------------------------------
  // Values sent to the backend

  /** The education sent: the custom text for "Outros", otherwise the selected option
      (`None` stands for an absent value, which is not sent). */
  function FinalEducation(d: FormData): Option<string> {
    if d.education == "Outros" then d.customEducation else Some(d.education)
  }

  /** An accepted form always sends a non-empty education, and sends the custom text exactly
      when "Outros" was chosen. */
  lemma {:induction false} AcceptedFormSendsEducation(d: FormData, lib: LibraryVerdicts)
    requires FieldIssues(d, lib) == {}
    ensures FinalEducation(d).Some? && FinalEducation(d).value != []
    ensures FinalEducation(d) == (if d.education == "Outros" then d.customEducation else Some(d.education))
  {
    PassedCheck(d, lib, CustomEducation);
    PassedCheck(d, lib, Education);
  }

  function DigitValue(c: char): nat
    requires IsAsciiDigit(c)
  {
    c as nat - '0' as nat
  }

  function Pow10(n: nat): (p: nat)
    ensures p >= 1
  {
    if n == 0 then 1 else 10 * Pow10(n - 1)
  }

  /** `parseInt(s, 10)` of a string of ASCII digits: a number below 10^|s|. */
  function DecimalValue(s: string): (v: nat)
    requires All(s, IsAsciiDigit)
    ensures v < Pow10(|s|)
  {
    if s == [] then 0
    else
      var v := DecimalValue(s[..|s| - 1]);
      assert v <= Pow10(|s| - 1) - 1;
      10 * v + DigitValue(s[|s| - 1])
  }

  /** Leading zeros do not change the number: `parseInt("0042")` is 42. */
  lemma {:induction false} LeadingZeroIgnored(s: string)
    requires All(s, IsAsciiDigit)
    ensures DecimalValue("0" + s) == DecimalValue(s)
  {
    if s != [] {
      var p := s[..|s| - 1];
      assert ("0" + s)[..|"0" + s| - 1] == "0" + p;
      LeadingZeroIgnored(p);
    } else {
      assert ("0" + s)[..0] == [];
    }
  }

  /** A graduation year the schema accepts is sent as a number below 10000. */
  lemma GraduationYearRange(s: string)
    requires FourDigits(s)
    ensures DecimalValue(s) < 10000
  {
    assert Pow10(4) == 10000;
  }

  /** The body of the creation request: the form's fields, with the two numbers parsed, the
      final education and consent forced to true. */
  datatype Payload = Payload(
    form: FormData, graduationYear: nat, experienceYears: nat,
    education: Option<string>, consentGiven: bool)

  function PayloadOf(d: FormData): Payload
    requires FourDigits(d.graduationYear) && Digits(d.experienceYears)
  {
    Payload(d, DecimalValue(d.graduationYear), DecimalValue(d.experienceYears), FinalEducation(d), true)
  }

  datatype FileEntry = FileEntry(name: string, size: int)

  const DocumentDescription := "Documento de Habilitação"

  /** The requests the page sends, in the order they are issued. */
  datatype ApiRequest =
    | CreateProfessional(payload: Payload)
    | UploadDocument(file: FileEntry, professional: string, description: string)

  /** One upload per staged file, in order, each for the created record. */
  function Uploads(files: seq<FileEntry>, id: string): (r: seq<ApiRequest>)
    ensures |r| == |files|
    ensures forall i :: 0 <= i < |files| ==> r[i] == UploadDocument(files[i], id, DocumentDescription)
  {
    seq(|files|, i requires 0 <= i < |files| => UploadDocument(files[i], id, DocumentDescription))
  }

  // ---------------------------------------------------------------------------
  // Pre-submit checks

  const NoFilesMessage := "Por favor, anexe pelo menos um documento."

  function OversizeMessage(name: string): string {
    "O arquivo " + name + " excede o limite de 5MB."
  }

  /** The position of the first file larger than 5 MB. */
  function FirstOversized(files: seq<FileEntry>): (r: Option<nat>)
    ensures r.None? <==> forall i :: 0 <= i < |files| ==> files[i].size <= Models.MaxUploadBytes
    ensures r.Some? ==> r.value < |files| && files[r.value].size > Models.MaxUploadBytes
                        && forall j :: 0 <= j < r.value ==> files[j].size <= Models.MaxUploadBytes
  {
    if files == [] then None
    else if files[0].size > Models.MaxUploadBytes then Some(0)
    else match FirstOversized(files[1..])
      case None => None
      case Some(k) => Some(k + 1)
  }

  /** What stops a submission before any request: no file, or the first file over 5 MB. */
  function PreSubmitError(files: seq<FileEntry>): Option<string> {
    if files == [] then Some(NoFilesMessage)
    else match FirstOversized(files)
      case Some(k) => Some(OversizeMessage(files[k].name))
      case None => None
  }

  /** The page lets a submission through exactly when there is at least one file and every file
      would pass the backend's own size validator; a file of exactly 5 MB passes both. */
  lemma {:induction false} PreSubmitAgreesWithBackend(files: seq<FileEntry>)
    ensures PreSubmitError(files).None? <==>
              files != [] && forall i :: 0 <= i < |files| ==> Models.ValidateFileSize(files[i].size).Ok?
    ensures PreSubmitError([FileEntry("laudo.pdf", 5 * 1024 * 1024)]).None?
  {
    var one := [FileEntry("laudo.pdf", 5 * 1024 * 1024)];
    assert FirstOversized(one).None?;
  }

  /** The message names the first oversized file, whatever the later files are. */
  lemma {:induction false} OversizeNamesFirst(ok: seq<FileEntry>, big: FileEntry, rest: seq<FileEntry>)
    requires forall i :: 0 <= i < |ok| ==> ok[i].size <= Models.MaxUploadBytes
    requires big.size > Models.MaxUploadBytes
    ensures PreSubmitError(ok + [big] + rest) == Some(OversizeMessage(big.name))
  {
    var files := ok + [big] + rest;
    var k := FirstOversized(files);
    assert files[|ok|] == big;
    assert k.Some?;
    assert forall i :: 0 <= i < |ok| ==> files[i] == ok[i];
  }

  // ---------------------------------------------------------------------------
  // Error classification

  const DuplicateCpfMessage := "Já existe uma solicitação para este CPF recente."
  const InvalidDataMessage := "Erro ao enviar cadastro. Verifique os dados."
  const ConnectionMessage := "Erro de conexão. Tente novamente."

  /** The message for a failed request. `responseData` is the JSON text of the response body
      when a response with a truthy body arrived, and `None` otherwise. */
  function ClassifySubmitError(responseData: Option<string>): string {
    match responseData
    case Some(json) => if Contains(json, "CPF") then DuplicateCpfMessage else InvalidDataMessage
    case None => ConnectionMessage
  }

  /** The duplicate-CPF message exactly for a body mentioning "CPF", the connection message
      exactly when no body arrived, the generic message otherwise. */
  lemma ClassifySubmitErrorIff(responseData: Option<string>)
    ensures ClassifySubmitError(responseData) == DuplicateCpfMessage <==>
              responseData.Some? && Contains(responseData.value, "CPF")
    ensures ClassifySubmitError(responseData) == ConnectionMessage <==> responseData.None?
    ensures ClassifySubmitError(responseData) == InvalidDataMessage <==>
              responseData.Some? && !Contains(responseData.value, "CPF")
  {
    assert |DuplicateCpfMessage| == 48 && |InvalidDataMessage| == 44 && |ConnectionMessage| == 33;
  }

  // ---------------------------------------------------------------------------
  // Submission

  /** How the creation request ended: with the new record's id, or failed (with the body's JSON
      text, if a response with a body came back). */
  datatype CreateOutcome = Created(id: string) | CreateFailed(responseData: Option<string>)

  /** What a submission leaves behind: the error shown, the requests issued, and whether the
      page went back home. */
  datatype SubmitResult = SubmitResult(generalError: string, issued: seq<ApiRequest>, navigated: bool)

  /** The effect of `onSubmit` on validated data. `uploadFailure` is `None` when every upload
      succeeds, otherwise the response data of the failure the uploads report. */
  function Submit(files: seq<FileEntry>, d: FormData, creation: CreateOutcome,
                  uploadFailure: Option<Option<string>>): SubmitResult
    requires FourDigits(d.graduationYear) && Digits(d.experienceYears)
  {
    match PreSubmitError(files)
    case Some(msg) => SubmitResult(msg, [], false)
    case None =>
      var create := CreateProfessional(PayloadOf(d));
      match creation
      case CreateFailed(data) => SubmitResult(ClassifySubmitError(data), [create], false)
      case Created(id) =>
        match uploadFailure
        case None => SubmitResult("", [create] + Uploads(files, id), true)
        case Some(data) => SubmitResult(ClassifySubmitError(data), [create] + Uploads(files, id), false)
  }

  /** A submission stopped by the file checks issues no request and shows the check's message;
      otherwise its first request creates the record from the submitted values, with the final
      education, both numbers parsed and consent set to true. */
  lemma {:induction false} SubmitChecksFirst(files: seq<FileEntry>, d: FormData, creation: CreateOutcome,
                                             uploadFailure: Option<Option<string>>)
    requires FourDigits(d.graduationYear) && Digits(d.experienceYears)
    ensures var r := Submit(files, d, creation, uploadFailure);
      (r.issued == [] <==> PreSubmitError(files).Some?)
      && (PreSubmitError(files).Some? ==> r.generalError == PreSubmitError(files).value && !r.navigated)
      && (r.issued != [] ==> r.issued[0] == CreateProfessional(PayloadOf(d))
                             && r.issued[0].payload.form == d
                             && r.issued[0].payload.education == FinalEducation(d)
                             && r.issued[0].payload.consentGiven)
  {
  }

  /** Once the record is created, exactly one upload per staged file follows, each carrying the
      returned id and the fixed description; the page goes home exactly when every upload
      succeeded, and otherwise shows the classified error. A failed creation issues no upload. */
  lemma {:induction false} SubmitUploadsEveryFile(files: seq<FileEntry>, d: FormData, creation: CreateOutcome,
                                                  uploadFailure: Option<Option<string>>)
    requires FourDigits(d.graduationYear) && Digits(d.experienceYears)
    requires PreSubmitError(files).None?
    ensures var r := Submit(files, d, creation, uploadFailure);
      (creation.Created? ==>
         |r.issued| == |files| + 1
         && (forall i :: 0 <= i < |files| ==>
               r.issued[i + 1] == UploadDocument(files[i], creation.id, DocumentDescription))
         && (r.navigated <==> uploadFailure.None?)
         && (r.navigated ==> r.generalError == "")
         && (uploadFailure.Some? ==> r.generalError == ClassifySubmitError(uploadFailure.value)))
      && (creation.CreateFailed? ==>
            |r.issued| == 1 && !r.navigated && r.generalError == ClassifySubmitError(creation.responseData))
  {
    var r := Submit(files, d, creation, uploadFailure);
    if creation.Created? {
      var ups := Uploads(files, creation.id);
      assert r.issued == [CreateProfessional(PayloadOf(d))] + ups;
      forall i | 0 <= i < |files|
        ensures r.issued[i + 1] == UploadDocument(files[i], creation.id, DocumentDescription)
      {
        assert r.issued[i + 1] == ups[i];
      }
    }
  }

  // ---------------------------------------------------------------------------
  // Postal-code lookup

  /** The address service's answer: the address found, its `erro` flag, or a failed request. */
  datatype CepAnswer =
    | CepFound(logradouro: string, bairro: string, localidade: string, uf: string)
    | CepNotFound
    | CepRequestFailed

  /** The lookup address for a postal-code field, when its digits are exactly eight. */
  function CepLookupUrl(value: string): (url: Option<string>)
    ensures url.Some? <==> |Filter(value, IsAsciiDigit)| == 8
    ensures url.Some? ==> Contains(url.value, Filter(value, IsAsciiDigit))
  {
    var cep := Filter(value, IsAsciiDigit);
    if |cep| == 8 then
      ContainsInfix("https://viacep.com.br/ws/", cep, "/json/");
      Some("https://viacep.com.br/ws/" + cep + "/json/")
    else None
  }

  /** Punctuation in the field does not change the lookup: a masked code and its bare digits
      look up the same address. */
  lemma {:induction false} CepLookupIgnoresMask(a: string, b: string, c: char)
    requires !IsAsciiDigit(c)
    ensures CepLookupUrl(a + [c] + b) == CepLookupUrl(a + b)
  {
    InsertDroppedChar(a, c, b, IsAsciiDigit);
  }

  const CepNotFoundMessage := "CEP não encontrado."
  const CepFailedMessage := "Erro ao buscar CEP. Verifique sua conexão."

  // ---------------------------------------------------------------------------
  // The page's state

  /** The registration page: the form's values, the staged files, the banner error, the loading
      flag, the focused field, where the page navigated, and the requests sent so far. */
  class RegisterForm {
    var values: FormData
    var files: seq<FileEntry>
    var generalError: string
    var isLoading: bool
    var focus: Option<FormField>
    var navigatedTo: Option<string>
    var requests: seq<ApiRequest>

    constructor(initial: FormData)
      ensures values == initial && files == [] && generalError == "" && !isLoading
      ensures focus.None? && navigatedTo.None? && requests == []
    {
      values := initial;
      files := [];
      generalError := "";
      isLoading := false;
      focus := None;
      navigatedTo := None;
      requests := [];
    }

    /** `handleFileChange`: a non-empty selection replaces the staged files; an empty one keeps
        them. */
    method HandleFileChange(selected: seq<FileEntry>)
      modifies this`files
      ensures files == (if selected != [] then selected else old(files))
    {
      if |selected| > 0 {
        files := selected;
      }
    }

    /** `handleCepBlur`: returns the address looked up, if any. Without eight digits nothing
        happens; `erro` and a failed request leave the address alone and set the banner; a found
        address fills street, neighbourhood, city and state, moves focus to the number and
        clears the banner. */
    method HandleCepBlur(answer: CepAnswer) returns (lookup: Option<string>)
      modifies this`values, this`focus, this`generalError
      ensures lookup == CepLookupUrl(old(values).zipCode)
      ensures lookup.None? ==> values == old(values) && focus == old(focus) && generalError == old(generalError)
      ensures lookup.Some? && answer.CepNotFound? ==>
                values == old(values) && focus == old(focus) && generalError == CepNotFoundMessage
      ensures lookup.Some? && answer.CepRequestFailed? ==>
                values == old(values) && focus == old(focus) && generalError == CepFailedMessage
      ensures lookup.Some? && answer.CepFound? ==>
                values == old(values).(street := answer.logradouro, neighborhood := answer.bairro,
                                       city := answer.localidade, state := answer.uf)
                && focus == Some(Number) && generalError == ""
    {
      lookup := CepLookupUrl(values.zipCode);
      if lookup.Some? {
        match answer
        case CepNotFound =>
          generalError := CepNotFoundMessage;
        case CepRequestFailed =>
          generalError := CepFailedMessage;
        case CepFound(logradouro, bairro, localidade, uf) =>
          values := values.(street := logradouro);
          values := values.(neighborhood := bairro);
          values := values.(city := localidade);
          values := values.(state := uf);
          focus := Some(Number);
          generalError := "";
      }
    }

    /** `handleSubmit(onSubmit)`: the form's own values, which the schema accepted (`lib` holds
        the library verdicts on them), are submitted. The staged files are checked in order,
        then the record is created, every file uploaded and the page either goes home or shows
        the classified error. Loading is off again whenever a request was sent. */
    method OnSubmit(lib: LibraryVerdicts, creation: CreateOutcome, uploadFailure: Option<Option<string>>)
      requires FieldIssues(values, lib) == {}
      modifies this`generalError, this`isLoading, this`navigatedTo, this`requests
      ensures FourDigits(values.graduationYear) && Digits(values.experienceYears)
      ensures var r := Submit(files, values, creation, uploadFailure);
        generalError == r.generalError
        && requests == old(requests) + r.issued
        && navigatedTo == (if r.navigated then Some("/") else old(navigatedTo))
        && isLoading == (old(isLoading) && r.issued == [])
    {
      AcceptedFormShape(values, lib);
      if |files| == 0 {
        generalError := NoFilesMessage;
        return;
      }
      var i := 0;
      while i < |files|
        invariant 0 <= i <= |files|
        invariant forall j :: 0 <= j < i ==> files[j].size <= Models.MaxUploadBytes
      {
        if files[i].size > Models.MaxUploadBytes {
          assert FirstOversized(files) == Some(i);
          generalError := OversizeMessage(files[i].name);
          return;
        }
        i := i + 1;
      }
      SendRegistration(creation, uploadFailure);
    }

    /** The part of `onSubmit` after the file checks passed: the creation request carrying the
        form's values, then one upload per file, then home or the classified error, with loading
        on meanwhile. */
    method SendRegistration(creation: CreateOutcome, uploadFailure: Option<Option<string>>)
      requires FourDigits(values.graduationYear) && Digits(values.experienceYears)
      requires PreSubmitError(files).None?
      modifies this`generalError, this`isLoading, this`navigatedTo, this`requests
      ensures var r := Submit(files, values, creation, uploadFailure);
        generalError == r.generalError
        && requests == old(requests) + r.issued
        && navigatedTo == (if r.navigated then Some("/") else old(navigatedTo))
        && !isLoading && r.issued != []
    {
      isLoading := true;
      generalError := "";
      var create := CreateProfessional(PayloadOf(values));
      requests := requests + [create];
      match creation {
        case CreateFailed(data) =>
          generalError := ClassifySubmitError(data);
        case Created(id) =>
          requests := requests + Uploads(files, id);
          assert requests == old(requests) + ([create] + Uploads(files, id));
          match uploadFailure {
            case None =>
              navigatedTo := Some("/");
            case Some(data) =>
              generalError := ClassifySubmitError(data);
          }
      }
      isLoading := false;
    }
  }
}
