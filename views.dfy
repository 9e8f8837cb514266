/** The professional and document endpoints (backend/professionals/views.py): access rules,
    serializer choice, the review and audit bookkeeping around create and update, the audit
    history, the spreadsheet export rows and the individual export's file name. */
module Views {
  import opened Text
  import opened Wrappers
  import opened Models
  import opened Audit
  import opened Serializers

  /** The user behind a request. */
  datatype RequestUser = Anonymous | User(username: UserName, isStaff: bool)

  function Actor(u: RequestUser): Option<UserName> {
    match u
    case Anonymous => None
    case User(name, _) => Some(name)
  }

  // ---------------------------------------------------------------------------
  // Access rules

  datatype Permission = AllowAny | IsAdminUser

  predicate Grants(p: Permission, u: RequestUser) {
    match p
    case AllowAny => true
    case IsAdminUser => u.User? && u.isStaff
  }

  /** `ProfessionalViewSet.get_permissions`. */
  function ProfessionalPermission(action: string): Permission {
    if action in ["create"] then AllowAny else IsAdminUser
  }

  /** `DocumentViewSet.get_permissions`. */
  function DocumentPermission(action: string): Permission {
    if action == "create" then AllowAny else IsAdminUser
  }

  /** Registration and document upload are open to everyone; every other action on either
      endpoint is open to staff only, so a user who is not staff may only create. */
  lemma {:induction false} OnlyCreateIsPublic(action: string, u: RequestUser)
    ensures Grants(ProfessionalPermission(action), u) <==> action == "create" || (u.User? && u.isStaff)
    ensures Grants(DocumentPermission(action), u) <==> action == "create" || (u.User? && u.isStaff)
  {
    assert action in ["create"] <==> action == "create";
  }

  /** `get_serializer_class`: staff updates get the management serializer. */
  function SerializerFor(action: string, u: RequestUser): SerializerKind {
    if action in ["update", "partial_update"] && u.User? && u.isStaff then ProfessionalManagementSerializer
    else ProfessionalSerializer
  }

  /** A request can write the status exactly when it is a staff update (PUT or PATCH); for every
      other request status is read-only. */
  lemma {:induction false} StatusWritableOnlyInStaffUpdates(action: string, u: RequestUser)
    ensures "status" in WritableFields(SerializerFor(action, u)) <==>
              (action == "update" || action == "partial_update") && u.User? && u.isStaff
  {
    WritableFieldSets(SerializerFor(action, u));
    assert action in ["update", "partial_update"] <==> action == "update" || action == "partial_update";
  }

  /** A request that passes the access rules and may write the status comes from staff. */
  lemma {:induction false} StatusChangesNeedStaff(action: string, u: RequestUser)
    requires Grants(ProfessionalPermission(action), u)
    requires "status" in WritableFields(SerializerFor(action, u))
    ensures u.User? && u.isStaff
  {
    StatusWritableOnlyInStaffUpdates(action, u);
  }

  // ---------------------------------------------------------------------------
  // Review stamping and audit entries

  const ProfessionalModel := "Professional"

  /** The entry `perform_create` writes. */
  function CreateEntry(p: Professional, u: RequestUser, now: Timestamp): AuditEntry {
    AuditEntry(Actor(u), Create, ProfessionalModel, p.id, "Professional registered: " + p.profile.name, now)
  }

  /** The reviewer stamping of an authenticated update: the first approval (or rejection) records
      who decided and when. */
  function StampReview(p: Professional, reviewer: UserName, now: Timestamp): Professional {
    if p.status == Approved && p.review.approvedBy.None? then
      p.(review := p.review.(approvedBy := Some(reviewer), approvedAt := Some(now)))
    else if p.status == Rejected && p.review.rejectedBy.None? then
      p.(review := p.review.(rejectedBy := Some(reviewer), rejectedAt := Some(now)))
    else p
  }

  /** Stamping sets the reviewer pair matching the status when it is empty, never overwrites a
      recorded reviewer, leaves the other pair alone, and changes nothing but the review. */
  lemma StampReviewSpec(p: Professional, reviewer: UserName, now: Timestamp)
    ensures var r := StampReview(p, reviewer, now);
      && r.(review := p.review) == p
      && (p.review.approvedBy.Some? ==> r.review.approvedBy == p.review.approvedBy && r.review.approvedAt == p.review.approvedAt)
      && (p.review.rejectedBy.Some? ==> r.review.rejectedBy == p.review.rejectedBy && r.review.rejectedAt == p.review.rejectedAt)
      && (p.status == Approved ==>
            (r.review.approvedBy.Some?
             && r.review.rejectedBy == p.review.rejectedBy && r.review.rejectedAt == p.review.rejectedAt))
      && (p.status == Rejected ==>
            (r.review.rejectedBy.Some?
             && r.review.approvedBy == p.review.approvedBy && r.review.approvedAt == p.review.approvedAt))
      && (p.status == Approved && p.review.approvedBy.None? ==>
            r.review.approvedBy == Some(reviewer) && r.review.approvedAt == Some(now))
      && (p.status == Rejected && p.review.rejectedBy.None? ==>
            r.review.rejectedBy == Some(reviewer) && r.review.rejectedAt == Some(now))
      && (p.status != Approved && p.status != Rejected ==> r == p)
  {
  }

  /** The entries `perform_update` appends: a status change entry when the status changed and a
      notes entry when the internal notes changed, both only for authenticated users. */
  function UpdateEntries(before: Professional, after: Professional, u: RequestUser, now: Timestamp): seq<AuditEntry> {
    if u.Anonymous? then []
    else
      (if after.status != before.status then
         [AuditEntry(Some(u.username), StatusChange, ProfessionalModel, after.id,
                     "Status changed to " + StatusCode(after.status), now)]
       else [])
      + (if after.internalNotes != before.internalNotes then
           [AuditEntry(Some(u.username), Update, ProfessionalModel, after.id, "Internal notes updated", now)]
         else [])
  }

  predicate HasAction(entries: seq<AuditEntry>, a: AuditAction) {
    exists i :: 0 <= i < |entries| && entries[i].action == a
  }

  /** A status change entry is written iff an authenticated user changed the status, and it names
      the new status; a notes entry is written iff an authenticated user changed the notes; an
      anonymous update writes nothing. Every entry is attributed to the user and targets the record. */
  lemma {:induction false} UpdateEntriesSpec(before: Professional, after: Professional, u: RequestUser, now: Timestamp)
    ensures var es := UpdateEntries(before, after, u, now);
      && (u.Anonymous? ==> es == [])
      && (HasAction(es, StatusChange) <==> u.User? && after.status != before.status)
      && (HasAction(es, Update) <==> u.User? && after.internalNotes != before.internalNotes)
      && |es| <= 2
      && (forall i :: 0 <= i < |es| ==>
            es[i].user == Actor(u) && es[i].targetModel == ProfessionalModel && es[i].targetId == after.id
            && es[i].timestamp == now && (es[i].action == StatusChange || es[i].action == Update))
      && (forall i :: 0 <= i < |es| && es[i].action == StatusChange ==>
            Contains(es[i].details, StatusCode(after.status)))
  {
    var es := UpdateEntries(before, after, u, now);
    if u.User? && after.status != before.status {
      assert es[0].action == StatusChange;
      ContainsInfix("Status changed to ", StatusCode(after.status), "");
      assert "Status changed to " + StatusCode(after.status) + "" == es[0].details;
    }
    if u.User? && after.internalNotes != before.internalNotes {
      assert es[|es| - 1].action == Update;
    }
  }

  // ---------------------------------------------------------------------------
  // The store of records and the audit log

  /** Entries appear in the order they were written, so timestamps never decrease. */
  predicate Chronological(log: seq<AuditEntry>) {
    forall i, j :: 0 <= i < j < |log| ==> log[i].timestamp <= log[j].timestamp
  }

  /** The professional records and the audit log, as the two views write them. */
  class ReviewStore {
    var records: seq<Professional>
    var log: seq<AuditEntry>

    ghost predicate Valid()
      reads this
    {
      Chronological(log)
    }

    /** The clock does not run backwards: `now` is no earlier than any logged entry. */
    predicate NotBefore(now: Timestamp)
      reads this
    {
      forall i :: 0 <= i < |log| ==> log[i].timestamp <= now
    }

    constructor ()
      ensures Valid() && records == [] && log == []
    {
      records := [];
      log := [];
    }

    /** `perform_create`: saves the validated registration (through the serializer's `create`)
        and writes exactly one CREATE entry for it. */
    method PerformCreate(data: ValidatedData, id: string, u: RequestUser, now: Timestamp) returns (created: Professional)
      requires Valid() && NotBefore(now)
      modifies this
      ensures Valid()
      ensures created == Serializers.Create(data, id, now)
      ensures records == old(records) + [created]
      ensures log == old(log) + [CreateEntry(created, u, now)]
    {
      created := Serializers.Create(data, id, now);
      records := records + [created];
      log := log + [CreateEntry(created, u, now)];
    }

    /** A registration request: validation against the stored records, then `perform_create`.
        A refused request changes nothing; an accepted one yields a PENDING record whose consent
        is stamped with `now`, and one CREATE entry naming it. */
    method Register(input: RegistrationInput, id: string, u: RequestUser, now: Timestamp)
      returns (r: Result<Professional, set<FieldError>>)
      requires Valid() && NotBefore(now)
      modifies this
      ensures Valid()
      ensures r.Err? <==> Validate(input, old(records), now).Err?
      ensures r.Err? ==> r.error == Validate(input, old(records), now).error
                         && records == old(records) && log == old(log)
      ensures r.Ok? ==> records == old(records) + [r.value] && log == old(log) + [CreateEntry(r.value, u, now)]
      ensures r.Ok? ==> r.value.id == id && r.value.profile == CheckedProfile(input) && r.value.status == Pending
                        && r.value.consentGiven && r.value.consentDate == Some(now)
    {
      match Validate(input, records, now)
      case Err(errors) =>
        r := Err(errors);
      case Ok(data) =>
        var created := PerformCreate(data, id, u, now);
        r := Ok(created);
    }

    /** `perform_update` for record `k`, which the serializer chosen for `action` has just
        saved as `saved`: an authenticated update is stamped with its reviewer, and the audit
        entries of `UpdateEntries` are appended. The submission and consent dates stay as
        stored, and the status changes only in a staff update. */
    method PerformUpdate(k: nat, action: string, saved: Professional, u: RequestUser, now: Timestamp)
      requires Valid() && NotBefore(now)
      requires k < |records| && SavedThrough(SerializerFor(action, u), records[k], saved)
      modifies this
      ensures Valid()
      ensures records == old(records)[k := if u.User? then StampReview(saved, u.username, now) else saved]
      ensures log == old(log) + UpdateEntries(old(records)[k], saved, u, now)
      ensures records[k].id == old(records)[k].id
      ensures records[k].submissionDate == old(records)[k].submissionDate
      ensures records[k].consentDate == old(records)[k].consentDate
      ensures records[k].status != old(records)[k].status ==> u.User? && u.isStaff
    {
      var before := records[k];
      WritableFieldSets(SerializerFor(action, u));
      StatusWritableOnlyInStaffUpdates(action, u);
      records := records[k := saved];
      if u.User? {
        StampReviewSpec(saved, u.username, now);
        records := records[k := StampReview(saved, u.username, now)];
      }
      log := log + UpdateEntries(before, saved, u, now);
    }
  }

  /** What a save through serializer `kind` can leave changed: the primary key is kept, and so
      is every read-only field of that serializer. */
  predicate SavedThrough(kind: SerializerKind, before: Professional, saved: Professional) {
    && saved.id == before.id
    && ("submission_date" !in WritableFields(kind) ==> saved.submissionDate == before.submissionDate)
    && ("consent_date" !in WritableFields(kind) ==> saved.consentDate == before.consentDate)
    && ("status" !in WritableFields(kind) ==> saved.status == before.status)
  }

  // ---------------------------------------------------------------------------
  // History

  predicate Targets(e: AuditEntry, id: string) {
    e.targetModel == ProfessionalModel && e.targetId == id
  }

  /** `history`: the entries about one professional, newest first. */
  function History(log: seq<AuditEntry>, id: string): (r: seq<AuditEntry>)
    ensures |r| <= |log|
  {
    if log == [] then []
    else
      var last := log[|log| - 1];
      (if Targets(last, id) then [last] else []) + History(log[..|log| - 1], id)
  }

  /** History holds exactly the entries of the log that target the professional. */
  lemma {:induction false} HistoryMembers(log: seq<AuditEntry>, id: string, e: AuditEntry)
    ensures e in History(log, id) <==> e in log && Targets(e, id)
  {
    if log != [] {
      var init := log[..|log| - 1];
      HistoryMembers(init, id, e);
      assert log == init + [log[|log| - 1]];
    }
  }

  /** Each entry about the professional appears in the history as often as in the log. */
  lemma {:induction false} HistoryCounts(log: seq<AuditEntry>, id: string, e: AuditEntry)
    ensures multiset(History(log, id))[e] == if Targets(e, id) then multiset(log)[e] else 0
  {
    if log != [] {
      var init := log[..|log| - 1];
      var last := log[|log| - 1];
      HistoryCounts(init, id, e);
      assert log == init + [last];
      assert multiset(log) == multiset(init) + multiset{last};
    }
  }

  /** Every entry of the log that is not later than `t` keeps that bound in the history. */
  lemma {:induction false} HistoryBounded(log: seq<AuditEntry>, id: string, t: Timestamp)
    requires forall i :: 0 <= i < |log| ==> log[i].timestamp <= t
    ensures forall i :: 0 <= i < |History(log, id)| ==> History(log, id)[i].timestamp <= t
  {
    forall i | 0 <= i < |History(log, id)|
      ensures History(log, id)[i].timestamp <= t
    {
      var e := History(log, id)[i];
      HistoryMembers(log, id, e);
    }
  }

  predicate NewestFirst(h: seq<AuditEntry>) {
    forall i, j :: 0 <= i < j < |h| ==> h[i].timestamp >= h[j].timestamp
  }

  /** On a chronological log the history is ordered newest first. */
  lemma {:induction false} HistoryNewestFirst(log: seq<AuditEntry>, id: string)
    requires Chronological(log)
    ensures NewestFirst(History(log, id))
  {
    if log != [] {
      var init := log[..|log| - 1];
      var last := log[|log| - 1];
      assert Chronological(init);
      HistoryNewestFirst(init, id);
      HistoryBounded(init, id, last.timestamp);
      var h := History(log, id);
      var rest := History(init, id);
      if Targets(last, id) {
        assert h == [last] + rest;
        forall i, j | 0 <= i < j < |h| ensures h[i].timestamp >= h[j].timestamp {
          assert h[j] == rest[j - 1];
          if i > 0 {
            assert h[i] == rest[i - 1];
          }
        }
      } else {
        assert h == rest;
      }
    }
  }

  /** The entry just written for a professional heads that professional's history. */
  lemma NewestEntryLeadsHistory(log: seq<AuditEntry>, e: AuditEntry)
    ensures History(log + [e], e.targetId) ==
              (if e.targetModel == ProfessionalModel then [e] else []) + History(log, e.targetId)
  {
    assert (log + [e])[..|log|] == log;
  }

  // ---------------------------------------------------------------------------
  // Spreadsheet export

  datatype Cell = Str(s: string) | Int(n: int) | Blank

  const ExportColumns: seq<string> := [
    "Data Envio", "Status", "Tipo",
    "Nome / Razão Social", "Nome Fantasia",
    "CPF", "CNPJ",
    "Data Nascimento / Abertura",
    "Nome Resp. Técnico", "CPF Resp. Técnico",
    "Email", "Telefone",
    "CEP", "Logradouro", "Número", "Complemento", "Bairro", "Cidade", "UF",
    "Formação", "Instituição", "Ano Conclusão",
    "Conselho", "Nº Conselho", "Área Atuação", "Experiência (anos)",
    "Data Aprovação/Reprovação", "Responsável Análise"]

  /** A Python value that may be None, as a spreadsheet cell. */
  function OptCell(o: Option<string>): Cell {
    match o
    case Some(s) => Str(s)
    case None => Blank
  }

  /** `value or '-'`: None and the empty string become '-'. */
  function OrDash(o: Option<string>): Cell {
    if o.Some? && o.value != "" then Str(o.value) else Str("-")
  }

  /** The values shown as '-': none, the empty string, or '-' itself. */
  predicate DashOrEmpty(o: Option<string>) {
    o == None || o == Some("") || o == Some("-")
  }

  /** `a or b` on optional values. */
  function OrElse<T>(a: Option<T>, b: Option<T>): Option<T> {
    if a.Some? then a else b
  }

  /** `get_person_type_display`: the labels of the two person types; other values show as stored. */
  function PersonTypeLabel(t: string): string {
    if t == "PF" then "Pessoa Física" else if t == "PJ" then "Pessoa Jurídica" else t
  }

  /** One export row; `stamp` and `day` are the two `strftime` formats. */
  function ExportRow(p: Professional, stamp: Timestamp -> string, day: int -> string): (r: seq<Cell>)
    ensures |r| == |ExportColumns|
  {
    var f := p.profile;
    var a := f.address;
    var isPj := f.personType == "PJ";
    var decidedAt := OrElse(p.review.approvedAt, p.review.rejectedAt);
    var reviewer := OrElse(p.review.approvedBy, p.review.rejectedBy);
    [ Str(stamp(p.submissionDate)),
      Str(StatusLabel(p.status)),
      Str(PersonTypeLabel(f.personType)),
      Str(f.name),
      if isPj then OptCell(f.companyName) else Str("-"),
      if !isPj then OptCell(f.cpf) else Str("-"),
      if isPj then OptCell(f.cnpj) else Str("-"),
      Str(match f.birthDate case Some(d) => day(d) case None => "-"),
      if isPj then OptCell(f.technicalManagerName) else Str("-"),
      if isPj then OptCell(f.technicalManagerCpf) else Str("-"),
      Str(f.email),
      Str(f.phone),
      Str(a.zipCode),
      Str(a.street),
      Str(a.number),
      OrDash(a.complement),
      Str(a.neighborhood),
      Str(a.city),
      Str(a.state),
      Str(f.education),
      Str(f.institution),
      Int(f.graduationYear),
      Str(f.councilName),
      Str(f.councilNumber),
      OrDash(f.areaOfAction),
      Int(f.experienceYears),
      Str(match decidedAt case Some(t) => stamp(t) case None => "-"),
      Str(match reviewer case Some(n) => n case None => "-")
    ]
  }

  /** The header positions the row layout refers to. */
  lemma ExportHeaderPositions()
    ensures |ExportColumns| == 28
    ensures ExportColumns[3] == "Nome / Razão Social"
    ensures ExportColumns[4] == "Nome Fantasia" && ExportColumns[5] == "CPF" && ExportColumns[6] == "CNPJ"
    ensures ExportColumns[8] == "Nome Resp. Técnico" && ExportColumns[9] == "CPF Resp. Técnico"
    ensures ExportColumns[15] == "Complemento" && ExportColumns[24] == "Área Atuação"
  {
  }

  /** Under the header's own column names: a PF row has '-' for the company name, CNPJ and
      technical manager and shows the CPF; a PJ row has '-' for the CPF and shows the company
      name and CNPJ; a complement or area of action that is missing or empty becomes '-'. */
  lemma ExportRowLayout(p: Professional, stamp: Timestamp -> string, day: int -> string)
    ensures var r := ExportRow(p, stamp, day);
      && (p.profile.personType != "PJ" ==>
            r[4] == Str("-") && r[6] == Str("-") && r[8] == Str("-") && r[9] == Str("-")
            && r[5] == OptCell(p.profile.cpf))
      && (p.profile.personType == "PJ" ==>
            r[5] == Str("-") && r[4] == OptCell(p.profile.companyName) && r[6] == OptCell(p.profile.cnpj))
      && (r[15] == Str("-") <==> DashOrEmpty(p.profile.address.complement))
      && (r[24] == Str("-") <==> DashOrEmpty(p.profile.areaOfAction))
      && (!DashOrEmpty(p.profile.address.complement) ==> r[15] == Str(p.profile.address.complement.value))
      && (!DashOrEmpty(p.profile.areaOfAction) ==> r[24] == Str(p.profile.areaOfAction.value))
      && r[3] == Str(p.profile.name)
  {
    ExportHeaderPositions();
  }

  /** The header row: one text cell per column name. */
  function HeaderRow(): (r: seq<Cell>)
    ensures |r| == |ExportColumns|
    ensures forall i :: 0 <= i < |r| ==> r[i] == Str(ExportColumns[i])
  {
    seq(|ExportColumns|, i requires 0 <= i < |ExportColumns| => Str(ExportColumns[i]))
  }

  /** `_generate_excel_response`'s sheet: the header, then one row per record, in order. */
  method GenerateSheet(queryset: seq<Professional>, stamp: Timestamp -> string, day: int -> string)
    returns (sheet: seq<seq<Cell>>)
    ensures |sheet| == |queryset| + 1
    ensures sheet[0] == HeaderRow()
    ensures forall i :: 0 <= i < |queryset| ==> sheet[i + 1] == ExportRow(queryset[i], stamp, day)
    ensures forall i :: 0 <= i < |sheet| ==> |sheet[i]| == |ExportColumns|
  {
    sheet := [HeaderRow()];
    var n := 0;
    while n < |queryset|
      invariant 0 <= n <= |queryset|
      invariant |sheet| == n + 1
      invariant sheet[0] == HeaderRow()
      invariant forall i :: 0 <= i < n ==> sheet[i + 1] == ExportRow(queryset[i], stamp, day)
    {
      var row := ExportRow(queryset[n], stamp, day);
      sheet := sheet + [row];
      n := n + 1;
    }
    forall i | 0 <= i < |sheet|
      ensures |sheet[i]| == |ExportColumns|
    {
      if i > 0 {
        assert sheet[i] == ExportRow(queryset[i - 1], stamp, day);
      }
    }
  }

  // ---------------------------------------------------------------------------
  // File name of the individual export

  /** The document that names the file: the CNPJ for PJ, otherwise the CPF. */
  function ExportIdentifier(f: Profile): Option<string> {
    if f.personType == "PJ" then f.cnpj else f.cpf
  }

  /** Its digits, or 'no_doc' when there is no document or it is empty. */
  function CleanIdentifier(f: Profile): (r: string)
    ensures (ExportIdentifier(f) == None || ExportIdentifier(f) == Some("")) <==> r == "no_doc"
    ensures r != "no_doc" ==> All(r, IsPyDigit)
    ensures ExportIdentifier(f).Some? && ExportIdentifier(f).value != "" && All(ExportIdentifier(f).value, IsPyDigit)
            ==> r == ExportIdentifier(f).value
    ensures ExportIdentifier(f).Some? && ExportIdentifier(f).value != ""
            && (forall i :: 0 <= i < |ExportIdentifier(f).value| ==> !IsPyDigit(ExportIdentifier(f).value[i]))
            ==> r == ""
  {
    match ExportIdentifier(f)
    case Some(s) =>
      if s != "" then
        var r := Filter(s, IsPyDigit);
        assert r != "no_doc" by {
          assert r == "no_doc" ==> !IsPyDigit(r[0]);
        }
        assert (forall i :: 0 <= i < |s| ==> !IsPyDigit(s[i])) ==> r == "" by {
          if forall i :: 0 <= i < |s| ==> !IsPyDigit(s[i]) {
            FilterDropsAll(s, IsPyDigit);
          }
        }
        assert All(s, IsPyDigit) ==> r == s by {
          if All(s, IsPyDigit) {
            FilterKeepsAll(s, IsPyDigit);
          }
        }
        r
      else "no_doc"
    case None => "no_doc"
  }

  /** A punctuated document gives its digits in order: dropping a non-digit from a document
      that keeps another character does not change the identifier. */
  lemma {:induction false} CleanIdentifierDropsPunctuation(f: Profile, g: Profile, a: string, c: char, b: string)
    requires ExportIdentifier(f) == Some(a + [c] + b) && ExportIdentifier(g) == Some(a + b)
    requires !IsPyDigit(c) && a + b != ""
    ensures CleanIdentifier(f) == CleanIdentifier(g)
  {
    InsertDroppedChar(a, c, b, IsPyDigit);
    assert a + [c] + b != "";
  }

  predicate NameChar(c: char) {
    IsPyAlnum(c) || c == ' ' || c == '_'
  }

  predicate SafeNameChar(c: char) {
    IsPyAlnum(c) || c == '_'
  }

  /** The name with everything but letters, digits, spaces and '_' dropped, spaces turned to '_'. */
  function CleanName(name: string): (r: string)
    ensures All(r, SafeNameChar)
    ensures |r| <= |name|
  {
    var kept := Filter(name, NameChar);
    var r := ReplaceChar(kept, ' ', '_');
    assert forall i :: 0 <= i < |r| ==> SafeNameChar(r[i]) by {
      forall i | 0 <= i < |r| ensures SafeNameChar(r[i]) {
        assert NameChar(kept[i]);
      }
    }
    r
  }

  /** A space in the name becomes '_'. */
  lemma CleanNameSpace(a: string, b: string)
    ensures CleanName(a + " " + b) == CleanName(a) + "_" + CleanName(b)
  {
    var fa := Filter(a, NameChar);
    var fb := Filter(b, NameChar);
    FilterConcat(a + " ", b, NameChar);
    FilterConcat(a, " ", NameChar);
    assert Filter(" ", NameChar) == " ";
    assert Filter(a + " " + b, NameChar) == fa + " " + fb;
    ReplaceCharConcat(fa + " ", fb, ' ', '_');
    ReplaceCharConcat(fa, " ", ' ', '_');
    assert ReplaceChar(" ", ' ', '_') == "_";
  }

  /** Any other character that is not a letter or digit is dropped from the name. */
  lemma CleanNameDrops(a: string, c: char, b: string)
    requires !NameChar(c)
    ensures CleanName(a + [c] + b) == CleanName(a + b)
  {
    InsertDroppedChar(a, c, b, NameChar);
  }

  /** `prestador_<name>_<cpf|cnpj>_<date>.xlsx`. */
  function ExportFilename(p: Professional, date: string): string {
    "prestador_" + (CleanName(p.profile.name) + "_" + CleanIdentifier(p.profile) + "_" + date) + ".xlsx"
  }

  /** A name made only of letters, digits and '_' is used as it is. */
  lemma {:induction false} CleanNameKeepsSafeNames(name: string)
    requires All(name, SafeNameChar)
    ensures CleanName(name) == name
  {
    assert All(name, NameChar);
    FilterKeepsAll(name, NameChar);
    assert ReplaceChar(name, ' ', '_') == name;
  }

  lemma FramedName(mid: string)
    ensures StartsWith("prestador_" + mid + ".xlsx", "prestador_")
    ensures EndsWith("prestador_" + mid + ".xlsx", ".xlsx")
  {
    var f := "prestador_" + mid + ".xlsx";
    assert f[..|"prestador_"|] == "prestador_";
    assert f[|f| - |".xlsx"|..] == ".xlsx";
  }

  /** The file name has the fixed frame, and punctuation in the document number does not
      change it: inserting a non-digit anywhere in the CPF gives the same file name. */
  lemma {:induction false} ExportFilenameShape(p: Professional, date: string, a: string, c: char, b: string)
    requires p.profile.personType != "PJ" && p.profile.cpf == Some(a + b) && a + b != ""
    requires !IsPyDigit(c)
    ensures StartsWith(ExportFilename(p, date), "prestador_") && EndsWith(ExportFilename(p, date), ".xlsx")
    ensures ExportFilename(p.(profile := p.profile.(cpf := Some(a + [c] + b))), date) == ExportFilename(p, date)
  {
    FramedName(CleanName(p.profile.name) + "_" + CleanIdentifier(p.profile) + "_" + date);
    var q := p.(profile := p.profile.(cpf := Some(a + [c] + b)));
    InsertDroppedChar(a, c, b, IsPyDigit);
    assert a + [c] + b != "";
    assert CleanIdentifier(q.profile) == CleanIdentifier(p.profile);
  }
}
