/** The professional record, its status choices and defaults, and the document validators
    (backend/professionals/models.py). Times are integers (seconds); calendar dates are day numbers. */
module Models {
  import opened Text
  import opened Wrappers

  type Timestamp = int
  type UserName = string

  /** The file-size limit shared by the backend validator and the registration page: 5 MB. */
  const MaxUploadBytes: int := 5 * 1024 * 1024

  // ---------------------------------------------------------------------------
  // Status choices

  datatype Status = Pending | Approved | Rejected | AdjustmentRequested

  /** The stored value of each choice. */
  function StatusCode(s: Status): string {
    match s
    case Pending => "PENDING"
    case Approved => "APPROVED"
    case Rejected => "REJECTED"
    case AdjustmentRequested => "ADJUSTMENT_REQUESTED"
  }

  /** The human-readable label of each choice (`get_status_display`). */
  function StatusLabel(s: Status): string {
    match s
    case Pending => "Pendente"
    case Approved => "Aprovado"
    case Rejected => "Reprovado"
    case AdjustmentRequested => "Ajuste Solicitado"
  }

  /** The choice check a submitted status value goes through: only the four codes are accepted. */
  function ParseStatus(code: string): Option<Status> {
    if code == "PENDING" then Some(Pending)
    else if code == "APPROVED" then Some(Approved)
    else if code == "REJECTED" then Some(Rejected)
    else if code == "ADJUSTMENT_REQUESTED" then Some(AdjustmentRequested)
    else None
  }

  /** Every status round-trips through its stored code, and a value is accepted exactly when it
      is one of the four codes (so "INVALID_STATUS" is refused). */
  lemma StatusCodeRoundTrip(s: Status, code: string)
    ensures ParseStatus(StatusCode(s)) == Some(s)
    ensures ParseStatus(code).Some? ==> StatusCode(ParseStatus(code).value) == code
    ensures ParseStatus(code).None? <==> (forall t: Status :: StatusCode(t) != code)
  {
    if ParseStatus(code).None? {
      forall t: Status ensures StatusCode(t) != code {
        assert ParseStatus(StatusCode(t)).Some?;
      }
    }
  }

  // ---------------------------------------------------------------------------
  // The record

  datatype Address = Address(
    zipCode: string, street: string, number: string, complement: Option<string>,
    neighborhood: string, city: string, state: string)

  /** What a registrant submits about themselves (or their company). */
  datatype Profile = Profile(
    personType: string,
    name: string, companyName: Option<string>,
    cpf: Option<string>, cnpj: Option<string>,
    technicalManagerName: Option<string>, technicalManagerCpf: Option<string>,
    email: string, phone: string, birthDate: Option<int>,
    address: Address,
    education: string, institution: string, graduationYear: int,
    councilName: string, councilNumber: string,
    areaOfAction: Option<string>, experienceYears: int)

  /** Who decided a registration, and when. */
  datatype Review = Review(
    approvedBy: Option<UserName>, approvedAt: Option<Timestamp>,
    rejectedBy: Option<UserName>, rejectedAt: Option<Timestamp>)

  datatype Professional = Professional(
    id: string,
    profile: Profile,
    status: Status,
    submissionDate: Timestamp,
    consentGiven: bool,
    consentDate: Option<Timestamp>,
    internalNotes: string,
    review: Review)

  const NoReview := Review(None, None, None, None)

  /** A freshly saved record with every defaulted field at its default. */
  function NewProfessional(id: string, profile: Profile, now: Timestamp): (r: Professional)
    ensures r.status == Pending && !r.consentGiven && r.consentDate.None?
    ensures r.submissionDate == now && r.review == NoReview
    ensures r.id == id && r.profile == profile
  {
    Professional(id, profile, Pending, now, false, None, "", NoReview)
  }

  /** Python's `str()` of an optional string inside an f-string. */
  function PyStr(o: Option<string>): string {
    match o
    case Some(s) => s
    case None => "None"
  }

  // ---------------------------------------------------------------------------
  // Document validators and storage path

  /** `validate_file_size`: a file is refused exactly when it is larger than 5 MB. */
  function ValidateFileSize(size: int): (r: Result<(), string>)
    ensures r.Ok? <==> size <= MaxUploadBytes
  {
    if size > MaxUploadBytes then Err("Arquivo muito grande. O tamanho máximo é 5MB.") else Ok(())
  }

  /** The limit is inclusive: exactly 5 MB is accepted, one byte more is refused. */
  lemma FileSizeBoundary()
    ensures ValidateFileSize(5242880).Ok?
    ensures ValidateFileSize(5242881).Err?
  {
  }

  const UploadRoot := "documents/"

  /** `document_upload_path`: documents/<cpf of the owner>/<file name>. */
  function UploadPath(ownerCpf: Option<string>, filename: string): string {
    UploadRoot + PyStr(ownerCpf) + "/" + filename
  }

  /** Reads the owner's cpf and the file name back out of a storage path. */
  function SplitUploadPath(path: string): Option<(string, string)> {
    if !StartsWith(path, UploadRoot) then None
    else
      var rest := path[|UploadRoot|..];
      var owner := BeforeFirst(rest, '/');
      if owner == rest then None else Some((owner, rest[|owner| + 1..]))
  }

  /** The storage path keeps both the owner's cpf and the file name: they can be read back
      whenever the cpf holds no '/'. */
  lemma {:induction false} UploadPathRoundTrip(cpf: string, filename: string)
    requires '/' !in cpf
    ensures SplitUploadPath(UploadPath(Some(cpf), filename)) == Some((cpf, filename))
  {
    var path := UploadPath(Some(cpf), filename);
    assert path == UploadRoot + (cpf + ['/'] + filename);
    assert path[..|UploadRoot|] == UploadRoot;
    var rest := path[|UploadRoot|..];
    assert rest == cpf + ['/'] + filename;
    BeforeFirstSplit(cpf, '/', filename);
    assert rest[|cpf| + 1..] == filename;
  }

  /** The extensions a document may have. */
  const AllowedExtensions: set<string> := {"pdf", "jpg", "jpeg", "png"}

  /** `Path(name).suffix[1:].lower()`: the text after the last dot of the last path component,
      when that dot is neither the component's first nor its last character. */
  function ExtensionOf(name: string): string {
    var base := AfterLast(name, '/');
    var ext := AfterLast(base, '.');
    if '.' in base && 0 < |ext| < |base| - 1 then Lower(ext) else ""
  }

  /** `FileExtensionValidator(allowed_extensions=['pdf', 'jpg', 'jpeg', 'png'])`. */
  predicate ExtensionAllowed(name: string) {
    ExtensionOf(name) in AllowedExtensions
  }

  /** The last path component of `dir + base`, when `dir` is empty or ends with '/'. */
  lemma {:induction false} LastComponent(dir: string, base: string)
    requires dir == [] || dir[|dir| - 1] == '/'
    requires '/' !in base
    ensures AfterLast(dir + base, '/') == base
  {
    if dir != [] {
      assert dir + base == dir[..|dir| - 1] + ['/'] + base;
      AfterLastSplit(dir[..|dir| - 1], '/', base);
    }
  }

  /** In `stem.ext` the text after the last dot is `ext`, and that dot is neither first nor last. */
  lemma {:induction false} DottedBase(stem: string, ext: string)
    requires stem != [] && ext != [] && '.' !in ext
    ensures var base := stem + ['.'] + ext;
      '.' in base && AfterLast(base, '.') == ext && 0 < |ext| < |base| - 1
    ensures '/' !in stem && '/' !in ext ==> '/' !in stem + ['.'] + ext
  {
    AfterLastSplit(stem, '.', ext);
    assert (stem + ['.'] + ext)[|stem|] == '.';
  }

  /** The extension of a name, from its last component and that component's last dot. */
  lemma ExtensionFromParts(name: string, base: string, ext: string)
    requires AfterLast(name, '/') == base
    requires '.' in base && AfterLast(base, '.') == ext && 0 < |ext| < |base| - 1
    ensures ExtensionOf(name) == Lower(ext)
  {
  }

  /** The extension of `dir/stem.ext` is `ext`, lower-cased, for a non-empty stem and extension. */
  lemma {:induction false} ExtensionOfBuilt(dir: string, stem: string, ext: string)
    requires dir == [] || dir[|dir| - 1] == '/'
    requires stem != [] && ext != []
    requires '/' !in stem && '/' !in ext && '.' !in ext
    ensures ExtensionOf(dir + stem + "." + ext) == Lower(ext)
    ensures ExtensionAllowed(dir + stem + "." + ext) <==> Lower(ext) in AllowedExtensions
  {
    var base := stem + ['.'] + ext;
    var name := dir + stem + "." + ext;
    DottedBase(stem, ext);
    assert name == dir + base;
    LastComponent(dir, base);
    ExtensionFromParts(name, base, ext);
  }

  /** An upper-case extension passes: the check is case-insensitive. */
  lemma UpperCaseExtensionAllowed()
    ensures ExtensionAllowed("laudo.PDF")
  {
    assert [] + "laudo" + "." + "PDF" == "laudo.PDF";
    ExtensionOfBuilt("", "laudo", "PDF");
    LowerPdf();
  }

  lemma LowerPdf()
    ensures Lower("PDF") == "pdf"
  {
    var l := Lower("PDF");
    assert l[0] == LowerChar('P') == 'p';
    assert l[1] == LowerChar('D') == 'd';
    assert l[2] == LowerChar('F') == 'f';
  }

  /** A file whose name is only a dot and an extension has no extension, and is refused. */
  lemma DotFileRefused()
    ensures !ExtensionAllowed(".pdf")
  {
    assert '/' !in ".pdf";
    assert AfterLast(".pdf", '/') == ".pdf";
    AfterLastSplit("", '.', "pdf");
    assert [] + ['.'] + "pdf" == ".pdf";
  }
}
