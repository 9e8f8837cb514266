/** Sending through Django's mail system (backend/core/services/email/providers/django.py):
    the sender string, and the mapping of the send's outcome to an `EmailResult`. */
module EmailDjango {
  import opened Text
  import opened Wrappers
  import EmailFactory

  // ---------------------------------------------------------------------------
  // Sender

  const FallbackSender := "no-reply@unimed.com.br"

  /** DEFAULT_FROM_EMAIL, or the provider's own fallback when it is not defined. */
  function DefaultSender(setting: Option<string>): string {
    setting.GetOr(FallbackSender)
  }

  /** `s.split('<')[-1].split('>')[0].strip()`: the address inside `Name <address>`. */
  function AddressPart(s: string): string {
    Trim(BeforeFirst(AfterLast(s, '<'), '>'))
  }

  /** The `From` header: `from_email or default`, or `from_name <address>` when a name is given. */
  function Sender(fromEmail: Option<string>, fromName: Option<string>, defaultSender: string): string {
    if EmailFactory.Truthy(fromName) then
      var addr := if EmailFactory.Truthy(fromEmail) then fromEmail.value else AddressPart(defaultSender);
      fromName.value + " <" + addr + ">"
    else if EmailFactory.Truthy(fromEmail) then fromEmail.value
    else defaultSender
  }

  /** The address is read back out of a `Name <address>` sender whenever the address holds no
      angle bracket and no surrounding space. */
  lemma {:induction false} AddressPartRoundTrip(name: string, addr: string)
    requires '<' !in addr && '>' !in addr
    requires addr != [] ==> !IsPySpace(addr[0]) && !IsPySpace(addr[|addr| - 1])
    ensures AddressPart(name + " <" + addr + ">") == addr
  {
    var s := name + " <" + addr + ">";
    assert s == (name + " ") + ['<'] + (addr + ['>']);
    AfterLastSplit(name + " ", '<', addr + ['>']);
    assert addr + ['>'] == addr + ['>'] + [];
    BeforeFirstSplit(addr, '>', []);
    TrimUnchanged(addr);
  }

  /** A default with no angle brackets is used whole, trimmed. */
  lemma {:induction false} AddressPartPlain(s: string)
    requires '<' !in s && '>' !in s
    ensures AddressPart(s) == Trim(s)
  {
  }

  /** The three cases of the sender: without a name it is the given address or the default;
      with a name and an address, `name <address>`; with a name only, the default's address. */
  lemma {:induction false} SenderCases(fromEmail: Option<string>, fromName: Option<string>, defaultSender: string)
    ensures !EmailFactory.Truthy(fromName) ==>
              Sender(fromEmail, fromName, defaultSender)
              == (if EmailFactory.Truthy(fromEmail) then fromEmail.value else defaultSender)
    ensures EmailFactory.Truthy(fromName) && EmailFactory.Truthy(fromEmail) ==>
              Sender(fromEmail, fromName, defaultSender) == fromName.value + " <" + fromEmail.value + ">"
    ensures EmailFactory.Truthy(fromName) && !EmailFactory.Truthy(fromEmail) ==>
              Sender(fromEmail, fromName, defaultSender) == fromName.value + " <" + AddressPart(defaultSender) + ">"
  {
  }

  /** With a default of the form `Equipe <no-reply@unimed.com>`, a named sender without an
      address keeps the default's address. */
  lemma NamedSenderKeepsDefaultAddress(name: string)
    requires name != []
    ensures var addr := "no-reply@unimed.com";
      Sender(None, Some(name), "Equipe" + " <" + addr + ">") == name + " <" + addr + ">"
  {
    var addr := "no-reply@unimed.com";
    assert forall i :: 0 <= i < |addr| ==> addr[i] != '<' && addr[i] != '>';
    assert !IsPySpace(addr[0]) && !IsPySpace(addr[|addr| - 1]);
    AddressPartRoundTrip("Equipe", addr);
  }

  // ---------------------------------------------------------------------------
  // Result mapping

  /** How the send ended: with a count of delivered messages, or with an exception of one of the
      three kinds the provider tells apart. `SMTPException` is a subclass of `OSError`, so an
      SMTP error is never a connection error; `socket.error` is `OSError`. */
  datatype ErrorKind = SmtpError | ConnectionFailure | OtherError
  datatype SendOutcome = Delivered(sentCount: int) | Failed(kind: ErrorKind, message: string)

  datatype EmailDetails = NoDetails | SentDetails(sentCount: int, timeout: int)

  datatype EmailResult = EmailResult(
    success: bool, provider: string, status: string, details: EmailDetails,
    messageId: Option<string>, httpStatus: Option<int>, error: Option<string>)

  /** The keyword arguments the `EmailResult` dataclass accepts (backend/core/services/email/interfaces.py). */
  const EmailResultFields: set<string> :=
    {"success", "provider", "status", "details", "message_id", "http_status", "error"}

  /** What a call of the provider's `send` does: return a result or raise. */
  datatype Completion = Returned(result: EmailResult) | Raised(exception: string)

  /** Calling the `EmailResult` constructor with the named keywords: a keyword the dataclass does
      not declare raises a `TypeError` instead of building the result. */
  function Construct(keywords: set<string>, r: EmailResult): (c: Completion)
    ensures c.Returned? <==> keywords <= EmailResultFields
    ensures c.Returned? ==> c.result == r
  {
    if keywords <= EmailResultFields then Returned(r) else Raised("TypeError")
  }

  /** EMAIL_TIMEOUT, 20 when undefined. */
  function Timeout(setting: Option<int>): int {
    setting.GetOr(20)
  }

  function SentResult(sentCount: int, timeout: int): EmailResult {
    var success := sentCount > 0;
    EmailResult(success, "django", if success then "sent" else "failed",
                SentDetails(sentCount, timeout), None, None, None)
  }

  function FailureResult(kind: ErrorKind, message: string): EmailResult {
    match kind
    case SmtpError => EmailResult(false, "django", "smtp_error", NoDetails, None, None, Some("SMTP Error: " + message))
    case ConnectionFailure => EmailResult(false, "django", "connection_error", NoDetails, None, None, Some("Could not connect to email server"))
    case OtherError => EmailResult(false, "django", "exception", NoDetails, None, None, Some("Internal delivery error"))
  }

  /** `DjangoEmailProvider.send` as written: each exception handler also passes `debug=`. */
  function SendAsWritten(outcome: SendOutcome, timeoutSetting: Option<int>): Completion {
    match outcome
    case Delivered(n) =>
      Construct({"success", "provider", "status", "details"}, SentResult(n, Timeout(timeoutSetting)))
    case Failed(kind, message) =>
      Construct({"success", "provider", "status", "error", "debug"}, FailureResult(kind, message))
  }

  /** As written, every failed send raises a `TypeError` out of `send` instead of returning a
      failed result, so the promise that `send` never raises is broken on every error path. */
  lemma AsWrittenFailureRaises(outcome: SendOutcome, timeoutSetting: Option<int>)
    requires outcome.Failed?
    ensures SendAsWritten(outcome, timeoutSetting) == Raised("TypeError")
  {
    assert "debug" !in EmailResultFields;
  }

  /** `send` with the handlers building the result from the declared fields only. */
  function Send(outcome: SendOutcome, timeoutSetting: Option<int>): Completion {
    match outcome
    case Delivered(n) =>
      Construct({"success", "provider", "status", "details"}, SentResult(n, Timeout(timeoutSetting)))
    case Failed(kind, message) =>
      Construct({"success", "provider", "status", "error"}, FailureResult(kind, message))
  }

  /** The corrected `send` always returns a result from the "django" provider; it succeeds
      exactly when at least one message was delivered, with status "sent" then and "failed"
      for a zero count; the exception kinds map to "smtp_error", "connection_error" and
      "exception". On a delivered send it agrees with the code as written. */
  lemma SendSpec(outcome: SendOutcome, timeoutSetting: Option<int>)
    ensures Send(outcome, timeoutSetting).Returned?
    ensures var r := Send(outcome, timeoutSetting).result;
      r.provider == "django"
      && (r.success <==> outcome.Delivered? && outcome.sentCount > 0)
      && (outcome.Delivered? ==> r.status == (if outcome.sentCount > 0 then "sent" else "failed")
                                 && r.details == SentDetails(outcome.sentCount, Timeout(timeoutSetting)))
      && (outcome.Failed? && outcome.kind == SmtpError ==> r.status == "smtp_error")
      && (outcome.Failed? && outcome.kind == ConnectionFailure ==> r.status == "connection_error")
      && (outcome.Failed? && outcome.kind == OtherError ==> r.status == "exception")
      && (outcome.Failed? ==> r.error.Some?)
    ensures outcome.Delivered? ==> Send(outcome, timeoutSetting) == SendAsWritten(outcome, timeoutSetting)
  {
  }
}
