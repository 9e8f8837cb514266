# Healthcare-provider credentialing: a verified model of its rule-based core

The system collects registrations of health professionals (individuals, "PF", identified by a
CPF; companies, "PJ", identified by a CNPJ). A public web page submits each registration with
its qualification documents. Staff review it through an admin API, and every review step is
written to an audit log.

This project models in Dafny the parts of the system that are rules rather than plumbing:

- **Registration page** (`register.dfy`, module `Register`):
  - the form schema, including the "Outros" custom-education rule;
  - the postal-code (CEP) autofill;
  - the pre-submit file checks;
  - the submission sequence: create the record, then one upload per file;
  - the classification of server errors.

  The page is a class `RegisterForm` holding the form values, staged files, banner error,
  loading flag, focus, navigation target and the requests it issued. Its methods are the three
  event handlers.
- **Record and validators** (`models.py` → `models.dfy`, module `Models`):
  - status choices and their codes;
  - defaults of a new record;
  - the 5 MB file-size validator, the document upload path and the allowed extensions.
- **Registration serializers** (`serializers.py` → `serializers.dfy`, module `Serializers`):
  - the checks of the text fields backed by the model's CharFields (required, not null, not blank, trimmed, maximum length);
  - the consent rule and the 90-day duplicate-CPF block;
  - consent stamping on create;
  - writable field sets.
- **Audit action choices and entries** (`audit.dfy`, module `Audit`).
- **Review endpoints** (`views.py` → `views.dfy`, module `Views`):
  - access rules and serializer choice;
  - the reviewer stamping and audit entries of create and update, over a `ReviewStore` class holding the records and the audit log;
  - the audit history;
  - the 28-column export row and sheet;
  - the individual export's file name.
- **Admin list columns** (`admin.py` → `admin.dfy`, module `Admin`).
- **CNPJ validation** (`cnpj_service.dfy` and `cnpj_providers.dfy`): the 14-digit gate and the total classification of the registry's answer.
- **E-mail** (`email_factory.dfy` and `email_django.dfy`): provider choice from settings, the sender header, and the mapping of a send's outcome to an `EmailResult`.
- **Shared helpers:** `text.dfy` holds string helpers (digit filters, Python's split idioms, `strip`, case mapping on Latin-1, including `upper`'s 'ß' → "SS"); `wrappers.dfy` holds `Option` and `Result`.

How the model treats inputs and external behaviour:

- **Time** is an integer number of seconds, passed in. Date formatting is a function parameter.
- **Outside services** appear only as their outcomes, given as inputs: the postal-code service, the company registry, the backend's HTTP answers and the mail transport.
- **Library verdicts:** the validation library's e-mail check and `Date.parse` are given as booleans.

Two facts about the registration page that the model keeps:

- **CPF on the page:** the page checks only that the raw CPF is 11 code units long; letters and punctuation pass (`Register.CpfCheckIsLengthOnly`).
- **PJ fields on the page:** the page's schema has no company (PJ) fields: no CNPJ, company name or technical manager.

## Model

| member | source | states |
|---|---|---|
| Models.StatusCodeRoundTrip | backend/professionals/models.py:17-22 | every status round-trips through its stored code; a value is accepted iff it is one of PENDING, APPROVED, REJECTED, ADJUSTMENT_REQUESTED |
| Models.NewProfessional | backend/professionals/models.py:30-36 | a new record is PENDING, without consent or consent date, submitted now, with no reviewer |
| Models.ValidateFileSize | backend/professionals/models.py:11-14 | a file is accepted iff its size is at most 5·1024·1024 bytes |
| Models.FileSizeBoundary | backend/professionals/models.py:12-13 | exactly 5 MB is accepted, one byte more is refused |
| Models.UploadPathRoundTrip | backend/professionals/models.py:8-9 | `documents/<cpf>/<filename>` keeps both parts: they are read back from the path whenever the cpf has no '/' |
| Models.ExtensionOfBuilt | backend/professionals/models.py:50 | the extension of `dir/stem.ext` is `ext` lower-cased, and the file is allowed iff that is pdf, jpg, jpeg or png |
| Models.UpperCaseExtensionAllowed | backend/professionals/models.py:50 | the extension check ignores case ("laudo.PDF" is allowed) |
| Models.DotFileRefused | backend/professionals/models.py:50 | a name that is only a dot and an extension (".pdf") has no extension and is refused |
| Serializers.ValidateConsent | backend/professionals/serializers.py:25-35 | consent passes iff it is present, non-null and True |
| Serializers.CharFieldErrors | backend/professionals/models.py:25-28 | a text field passes iff it is present and not null, not blank once trimmed, at most `max_length` long after trimming and free of NUL characters; every error names the field |
| Serializers.ValidateCpf | backend/professionals/serializers.py:38-48 | an accepted cpf is returned unchanged |
| Serializers.RecentRecordBlocks | backend/professionals/serializers.py:38-48 | any stored record with the same cpf submitted at most 90 days ago blocks the registration |
| Serializers.OldRecordsDoNotBlock | backend/professionals/serializers.py:40-46 | records with that cpf that are all older than 90 days never block it |
| Serializers.OnlyCpfAndDateMatter | backend/professionals/serializers.py:41-44 | the verdict depends only on the stored cpfs and submission dates, not on names or e-mails |
| Serializers.Validate | backend/professionals/serializers.py:11-48 | a refusal carries at least one error; validated data carries name, cpf, e-mail and phone trimmed, the other fields as submitted, and consent True |
| Serializers.ValidateAcceptsIff | backend/professionals/serializers.py:11-48 | a registration is accepted iff consent is True, name (≤ 255), cpf (≤ 11), e-mail (≤ 254, well formed) and phone (≤ 20) pass their field checks, and no record has the trimmed cpf within 90 days |
| Serializers.CpfErrorsReported | backend/professionals/serializers.py:27-48 | the errors reported on the cpf are exactly its field checks' errors or, once those pass, `validate_cpf`'s |
| Serializers.OverlongCpfRefused | backend/professionals/models.py:26 | a cpf longer than 11 characters after trimming is refused with a length error, without consulting the 90-day rule |
| Serializers.EmptyCpfRefused | backend/professionals/models.py:26 | an empty cpf is refused as blank |
| Serializers.CpfTrimmedFirst | backend/professionals/serializers.py:38-48 | a cpf sent with leading whitespace gets the same verdict and the same saved record as without it |
| Serializers.Create | backend/professionals/serializers.py:50-53 | consent_date is now iff consent was given, otherwise unset; status PENDING, submitted now |
| Serializers.WritableFieldSets | backend/professionals/serializers.py:55-58 | the management serializer differs from the registration one exactly in letting status be written; neither lets submission_date or consent_date be written |
| Views.OnlyCreateIsPublic | backend/professionals/views.py:28-31 | on professionals (and on documents, views.py:320-323) an action is allowed iff it is 'create' or the user is staff |
| Views.StatusWritableOnlyInStaffUpdates | backend/professionals/views.py:33-36 | a request can write status iff it is an update or partial update by staff |
| Views.StatusChangesNeedStaff | backend/professionals/views.py:28-36 | any permitted request that may write status comes from staff |
| Views.StampReviewSpec | backend/professionals/views.py:86-95 | approval (rejection) fills the empty approver (rejector) pair with the user and now, never overwrites a recorded reviewer, leaves the other pair and every other field alone |
| Views.UpdateEntriesSpec | backend/professionals/views.py:86-114 | a STATUS_CHANGE entry naming the new status is written iff an authenticated user changed the status, an UPDATE entry iff they changed the notes, nothing for anonymous users |
| Views.ReviewStore.PerformCreate | backend/professionals/views.py:38-57 | the record is appended and exactly one CREATE entry with its id, the name in the details and no user when anonymous; the log stays chronological |
| Views.ReviewStore.Register | backend/professionals/views.py:38-57 | a refused registration changes nothing; an accepted one appends a PENDING record with consent stamped now and one CREATE entry |
| Views.ReviewStore.PerformUpdate | backend/professionals/views.py:68-114 | the saved record, which kept the read-only fields of the serializer chosen for the request, replaces the old one, stamped when the user is authenticated, and exactly the entries of UpdateEntries are appended; submission and consent dates stay as stored, the status changes only in a staff update, the log stays chronological |
| Views.History | backend/professionals/views.py:136-139 | the history is no longer than the log |
| Views.HistoryMembers | backend/professionals/views.py:136-138 | the history holds exactly the log entries whose target is this professional |
| Views.HistoryCounts | backend/professionals/views.py:136-138 | each entry about the professional appears in the history exactly as many times as in the log, and no other entry appears |
| Views.HistoryNewestFirst | backend/professionals/views.py:139 | on a chronological log the history is ordered newest first |
| Views.NewestEntryLeadsHistory | backend/professionals/views.py:136-139 | an entry just written about a professional heads their history |
| Views.ExportRow | backend/professionals/views.py:186-215 | each row has as many cells as the header has columns (28) |
| Views.ExportRowLayout | backend/professionals/views.py:184-211 | PF rows have '-' for company name, CNPJ and technical manager; PJ rows have '-' for CPF; complement and area of action show '-' iff they are missing, empty or '-', and their value otherwise |
| Views.GenerateSheet | backend/professionals/views.py:158-216 | the sheet is the header followed by one row per record, in order, every row 28 cells wide |
| Views.CleanIdentifier | backend/professionals/views.py:236-237 | the identifier is 'no_doc' iff the document (CNPJ for PJ, CPF otherwise) is missing or empty; otherwise it is digits only, a document of digits is used as it is, and a non-empty document without digits gives the empty string |
| Views.CleanIdentifierDropsPunctuation | backend/professionals/views.py:237 | removing a non-digit from a document that keeps another character leaves the identifier unchanged, so a punctuated document with a digit gives its own digits in order |
| Views.CleanName | backend/professionals/views.py:238 | the name part holds only letters, digits and '_', and is no longer than the name |
| Views.CleanNameSpace | backend/professionals/views.py:238 | a space in the name becomes '_' between the cleaned parts |
| Views.CleanNameDrops | backend/professionals/views.py:238 | any character other than a letter, digit, space or '_' is dropped |
| Views.CleanNameKeepsSafeNames | backend/professionals/views.py:238 | a name already made of letters, digits and '_' is kept as it is |
| Views.ExportFilenameShape | backend/professionals/views.py:235-241 | the file name reads `prestador_<name>_<document>_<date>.xlsx` and punctuation in the CPF does not change it |
| Admin.NameDisplaySpec | backend/professionals/admin.py:33-36 | the displayed name is the plain name iff the record is not PJ; a PJ shows "name (company)" |
| Admin.IdentifierAgreesWithExport | backend/professionals/admin.py:39-40 | the CPF for PF, the CNPJ otherwise; it agrees with the export's identifier for PF and PJ and differs for any other person type |
| CnpjProviders.ClassifyValidIff | backend/core/services/cnpj/providers.py:16-29 | valid iff the registry answered 200 with situation ATIVA after upper-casing; status is then ATIVA |
| CnpjProviders.InactiveSituationReported | backend/core/services/cnpj/providers.py:18-36 | any other 200 answer is invalid, its status is the upper-cased situation and the message names it; a missing situation is invalid |
| CnpjProviders.ClassifyFailureStatus | backend/core/services/cnpj/providers.py:37-66 | 404 gives NOT_FOUND, other codes ERROR with the code in details, timeouts TIMEOUT, other exceptions EXCEPTION, all invalid |
| CnpjProviders.LowerCaseAtivaAccepted | backend/core/services/cnpj/providers.py:18-23 | a lower-case 'ativa' is accepted |
| CnpjProviders.SharpSReportedAsDoubleS | backend/core/services/cnpj/providers.py:18-27 | `.upper()` is Python's full mapping: a situation "ß" is reported as "SS" |
| CnpjService.FormatGate | backend/core/services/cnpj/service.py:10-12 | without exactly 14 digits the result is INVALID_FORMAT whatever the provider |
| CnpjService.DelegatesOnCleanDigits | backend/core/services/cnpj/service.py:10-14 | with 14 digits the result is the provider's result on those digits |
| CnpjService.PunctuationIrrelevant | backend/core/services/cnpj/service.py:10 | inputs with the same digits get the same result |
| CnpjService.ValidNeedsFourteenDigits | backend/core/services/cnpj/service.py:10-14 | a valid result comes only from 14 digits, which the registry reported ATIVA |
| EmailFactory.SendGridIff | backend/core/services/email/factory.py:25-29 | SendGrid is chosen iff it is named and the key starts with "SG." |
| EmailFactory.DjangoIff | backend/core/services/email/factory.py:18-23 | Django is chosen iff it is named and a password is set or the mode is not prod; otherwise the console |
| EmailFactory.OtherNamesGiveConsole | backend/core/services/email/factory.py:31-32 | any other provider name gives the console |
| EmailFactory.Defaults | backend/core/services/email/factory.py:12-13 | the mode defaults to 'dev', the provider to 'console' in dev and 'django' otherwise |
| EmailFactory.ModeIgnoresCase | backend/core/services/email/factory.py:12 | the mode is lower-cased before comparison |
| EmailDjango.AddressPartRoundTrip | backend/core/services/email/providers/django.py:31 | the address is read back from `Name <address>` |
| EmailDjango.AddressPartPlain | backend/core/services/email/providers/django.py:31 | a default with no angle brackets is used whole, trimmed |
| EmailDjango.SenderCases | backend/core/services/email/providers/django.py:25-32 | without a name the sender is the given address or the default; with one it is `name <address>`, the address given or taken from the default |
| EmailDjango.NamedSenderKeepsDefaultAddress | backend/core/services/email/providers/django.py:28-32 | a named sender without an address keeps the default's address |
| EmailDjango.Construct | backend/core/services/email/interfaces.py:5-13 | building an EmailResult succeeds iff every keyword is a declared field |
| EmailDjango.AsWrittenFailureRaises | backend/core/services/email/providers/django.py:70-124 | as written, every failed send raises TypeError out of `send` |
| EmailDjango.SendSpec | backend/core/services/email/providers/django.py:36-124 | corrected: `send` always returns; success iff at least one message went; "sent"/"failed", and smtp_error, connection_error, exception for the three error kinds; agrees with the code on delivered sends |
| Register.AcceptedFormShape | frontend/src/pages/Register/index.tsx:40-68 | an accepted form has name ≥ 3, CPF exactly 11, phone ≥ 10, postal code 8–9, state 2, a four-digit year, digits-only experience and consent |
| Register.CustomEducationRule | frontend/src/pages/Register/index.tsx:69-77 | custom education has an issue iff "Outros" is chosen and it is empty or absent; it affects no other field |
| Register.CpfCheckIsLengthOnly | frontend/src/pages/Register/index.tsx:42 | the CPF check is on length only: eleven letters pass |
| Register.AcceptedFormSendsEducation | frontend/src/pages/Register/index.tsx:139-141 | an accepted form sends a non-empty education: the custom text for "Outros", the option otherwise |
| Register.DecimalValue | frontend/src/pages/Register/index.tsx:146-147 | parsing n digits gives a number below 10^n |
| Register.LeadingZeroIgnored | frontend/src/pages/Register/index.tsx:146-147 | leading zeros do not change the parsed number |
| Register.GraduationYearRange | frontend/src/pages/Register/index.tsx:146 | an accepted graduation year is sent as a number below 10000 |
| Register.Uploads | frontend/src/pages/Register/index.tsx:155-163 | one upload per file, in order, each carrying the record id and 'Documento de Habilitação' |
| Register.FirstOversized | frontend/src/pages/Register/index.tsx:127-132 | finds the first file over 5 MB, or none iff every file is within the limit |
| Register.PreSubmitAgreesWithBackend | frontend/src/pages/Register/index.tsx:121-132 | the page lets a submission through iff there is a file and every file passes the backend's size validator; exactly 5 MB passes |
| Register.OversizeNamesFirst | frontend/src/pages/Register/index.tsx:127-131 | the message names the first oversized file |
| Register.ClassifySubmitErrorIff | frontend/src/pages/Register/index.tsx:171-176 | duplicate message iff the body mentions "CPF", connection message iff no body, generic message otherwise |
| Register.SubmitChecksFirst | frontend/src/pages/Register/index.tsx:120-150 | no request is issued iff a file check fails, which then shows its message; otherwise the first request creates the record from the submitted values, with the final education, parsed numbers and consent true |
| Register.SubmitUploadsEveryFile | frontend/src/pages/Register/index.tsx:152-179 | after creation, one upload per file with the id and description; home iff every upload succeeded, otherwise the classified error; a failed creation uploads nothing |
| Register.CepLookupUrl | frontend/src/pages/Register/index.tsx:99-102 | a lookup happens iff the field has exactly 8 digits, and its address carries them |
| Register.CepLookupIgnoresMask | frontend/src/pages/Register/index.tsx:99 | punctuation in the postal code does not change the lookup |
| Register.RegisterForm.HandleFileChange | frontend/src/pages/Register/index.tsx:92-96 | a non-empty selection replaces the staged files; an empty one keeps them |
| Register.RegisterForm.HandleCepBlur | frontend/src/pages/Register/index.tsx:98-118 | without 8 digits nothing changes; not-found and failure leave the address and set their message; found fills the four fields, focuses the number and clears the banner |
| Register.RegisterForm.OnSubmit | frontend/src/pages/Register/index.tsx:120-180 | the form's own values, once the schema accepts them (`handleSubmit`, index.tsx:193), are what is submitted, autofilled address included: banner, issued requests and navigation are those of `Submit` on those values; loading is off again whenever a request was sent |
| Register.RegisterForm.SendRegistration | frontend/src/pages/Register/index.tsx:134-179 | once the file checks passed: loading is on while the record is created from the form's values and each file uploaded, then off; banner, requests and navigation are those of `Submit` |

## Left out

- Real I/O is not modelled; its outcomes are inputs:
  - the postal-code and company-registry HTTP calls;
  - SMTP and SendGrid delivery;
  - writing the workbook and the HTTP response around it;
  - logging, `alert`, and the e-mails sent after create and status change.
- Dashboard aggregation (backend/professionals/views.py:247-312) is left out: it is database aggregates and a floating-point average.
- Column widths of the export sheet (backend/professionals/views.py:218-221) are left out: they are presentation only.
- Concurrency of uploads is not modelled: `Promise.all` becomes an ordered sequence of upload requests, and the first rejection is an input.
- The library checks are given as booleans (`LibraryVerdicts`): zod's e-mail format and `Date.parse`.
- The wrappers around senders are not modelled: the console and SendGrid providers, `EmailService` and `send_confirmation_email`.
- Behaviour that the tests expect but the code does not implement is not modelled: CPF masking in e-mails, PF/PJ exclusive field errors and `_safe_send_email`.
- The database's unique constraint on cpf is left out: it contradicts the 90-day re-registration rule the serializer implements.
- Character classes are exact only up to U+00FF: Python's `isdigit`, `isalnum`, `isspace`, `upper` and `lower` are modelled exactly on Latin-1, `upper`'s three special cases included ('ß' → "SS", 'µ' → U+039C, 'ÿ' → U+0178). Above U+00FF a character is neither digit, letter nor space, and case mapping leaves it unchanged.
- Serializers.Validate: the field checks of the other declared fields (birth_date, address, education and the rest) are not modelled, because their model definitions are not part of backend/professionals/models.py; they are taken as submitted.
- Serializers.RegistrationInput: values arrive already decoded, as strings for the text fields and a boolean for consent. DRF's coercion of a JSON number to text with `str()` (a cpf sent as the number 12345678901 is accepted as "12345678901"), its string forms of booleans for consent ("true", "1", "on" and the like), and its 'invalid' error for a boolean, list or object in a text field or an unrecognised consent value are not modelled.
- Serializers.RegistrationInput: Django's e-mail validator is a boolean verdict on the trimmed e-mail. DRF's surrogate-character check cannot fail on Dafny strings, whose characters are Unicode scalar values.
- Views.ReviewStore.PerformUpdate: only the primary key and the serializer's read-only fields are pinned. The declared field list (serializers.py:16-23) lacks fields the views and the admin page use (internal notes, the reviewer fields, person type), so the model does not decide whether a save can change those.
- Register.RegisterForm.HandleCepBlur: the lookup and its answer are one atomic step. In the page, the `await` at index.tsx:102 lets the user edit fields or blur again before the answer arrives, and a late answer then overwrites those edits; that interleaving is not modelled.
- Register.DecimalValue: the value is exact on unbounded naturals. `parseInt` returns an IEEE double, so an experience of more than 15 digits (its schema, index.tsx:66, sets no length bound) loses precision in the page; that rounding is not modelled.
- Register.FieldIssues: the model tracks which fields have an issue, not the messages zod attaches to them.
- Register.RegisterForm.OnSubmit: requires the form's values to pass the schema, as `handleSubmit` guarantees before it calls `onSubmit`; the `NaN` that `parseInt` would yield for a non-digit year or experience cannot arise then and is not modelled.
- Register.RegisterForm: a `null` file list and an empty one are both the empty sequence; the page never stores an empty selection.
- Register.CepAnswer: the four address fields of a found answer are strings. The service leaving one undefined is not modelled.
- Views.ReviewStore: the serializer's `save` is a value passed in. Time must not run backwards (`NotBefore`), which keeps the log chronological, as the database's `auto_now_add` does.
- Serializers.Create: works on values. It builds the saved record instead of updating the `validated_data` dictionary in place.
- CnpjProviders.HttpOutcome: a situation that is JSON null, or a body that is not JSON, makes the provider raise. Such answers are `Raised` outcomes and are not distinguished further.
- EmailDjango: `BaseException`s that are not `Exception`s (such as `KeyboardInterrupt`) escape `send` in the code too. The model does not list them among the outcomes.

## Findings

| source | as written | input that shows it | evidently intended | confidence | as-written member | corrected member |
|---|---|---|---|---|---|---|
| backend/core/services/email/providers/django.py:81-124 | each of the three `except` handlers builds `EmailResult(..., debug=str(e))`, but the `EmailResult` dataclass declares no `debug` field (backend/core/services/email/interfaces.py:5-13), so the constructor raises `TypeError` | any send that raises, e.g. an `SMTPException` for a refused recipient or a `ConnectionRefusedError` | a failed `EmailResult` with status smtp_error, connection_error or exception, and no exception leaving `send` | high, not executed | EmailDjango.SendAsWritten, with EmailDjango.AsWrittenFailureRaises | EmailDjango.Send, with EmailDjango.SendSpec |
