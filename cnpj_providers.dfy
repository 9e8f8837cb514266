/** The company-registry lookup and the classification of its answer
    (backend/core/services/cnpj/providers.py). The HTTP call itself is an input. */
module CnpjProviders {
  import opened Text
  import opened Wrappers

  /** What the registry call produced: a response (with its status code and the registration
      situation field, `None` when the field is absent), a timeout, or any other raised exception.
      A body that is not JSON, or a situation that is JSON null, makes the provider's own code
      raise; such answers are `Raised` outcomes. */
  datatype HttpOutcome =
    | Responded(statusCode: int, situation: Option<string>)
    | TimedOut
    | Raised(error: string)

  /** The `details` of a result: the API data, the HTTP code, the error text, or nothing. */
  datatype Details = NoDetails | ApiData(situation: Option<string>) | HttpStatus(code: int) | ErrorText(error: string)

  datatype CnpjResult = CnpjResult(valid: bool, status: string, message: string, details: Details)

  /** The registry's external interface: the outcome of a lookup of a cleaned CNPJ. */
  type Registry = string -> HttpOutcome

  /** The situation as compared: a missing field counts as '', then upper-cased. */
  function NormalizedSituation(situation: Option<string>): string {
    Upper(situation.GetOr(""))
  }

  /** The branch cascade of `BrasilAPICNPJProvider.validate` after the request. */
  function Classify(outcome: HttpOutcome): CnpjResult {
    match outcome
    case Responded(code, situation) =>
      if code == 200 then
        var s := NormalizedSituation(situation);
        if s == "ATIVA" then CnpjResult(true, "ATIVA", "CNPJ Ativo.", ApiData(situation))
        else CnpjResult(false, s, "CNPJ com situação " + s + " na Receita Federal.", ApiData(situation))
      else if code == 404 then
        CnpjResult(false, "NOT_FOUND", "CNPJ não encontrado na base da Receita Federal.", NoDetails)
      else
        CnpjResult(false, "ERROR", "Erro ao consultar CNPJ. Tente novamente mais tarde.", HttpStatus(code))
    case TimedOut =>
      CnpjResult(false, "TIMEOUT", "Tempo limite excedido na validação do CNPJ.", NoDetails)
    case Raised(e) =>
      CnpjResult(false, "EXCEPTION", "Erro interno na validação do CNPJ.", ErrorText(e))
  }

  /** `BrasilAPICNPJProvider.validate`: looks up the digits of `cnpj` and classifies the answer. */
  function ProviderValidate(cnpj: string, registry: Registry): CnpjResult {
    Classify(registry(Filter(cnpj, IsPyDigit)))
  }

  /** A CNPJ is valid exactly when the registry answered 200 with situation ATIVA (in any case);
      the status is then ATIVA. */
  lemma ClassifyValidIff(outcome: HttpOutcome)
    ensures Classify(outcome).valid <==>
              outcome.Responded? && outcome.statusCode == 200 && NormalizedSituation(outcome.situation) == "ATIVA"
    ensures Classify(outcome).valid ==> Classify(outcome).status == "ATIVA"
  {
  }

  /** Any other 200 answer is invalid, reports the upper-cased situation as its status and names
      it in the message; a missing situation is treated as '' and is invalid. */
  lemma {:induction false} InactiveSituationReported(situation: Option<string>)
    requires NormalizedSituation(situation) != "ATIVA"
    ensures var r := Classify(Responded(200, situation));
      !r.valid && r.status == NormalizedSituation(situation)
      && Contains(r.message, NormalizedSituation(situation))
    ensures !Classify(Responded(200, None)).valid
  {
    var s := NormalizedSituation(situation);
    ContainsInfix("CNPJ com situação ", s, " na Receita Federal.");
    assert Upper("") == "";
  }

  /** The status of every failure: NOT_FOUND for 404, ERROR (with the code in the details) for
      any other non-200 code, TIMEOUT and EXCEPTION for the two raised cases; all are invalid. */
  lemma ClassifyFailureStatus(outcome: HttpOutcome)
    ensures outcome.Responded? && outcome.statusCode == 404 ==>
              (Classify(outcome) ==
                 CnpjResult(false, "NOT_FOUND", "CNPJ não encontrado na base da Receita Federal.", NoDetails))
    ensures outcome.Responded? && outcome.statusCode != 200 && outcome.statusCode != 404 ==>
              !Classify(outcome).valid && Classify(outcome).status == "ERROR"
              && Classify(outcome).details == HttpStatus(outcome.statusCode)
    ensures outcome.TimedOut? ==> !Classify(outcome).valid && Classify(outcome).status == "TIMEOUT"
    ensures outcome.Raised? ==> !Classify(outcome).valid && Classify(outcome).status == "EXCEPTION"
  {
  }

  /** The situation comparison ignores case: 'ativa' is accepted like 'ATIVA'. */
  lemma LowerCaseAtivaAccepted()
    ensures Classify(Responded(200, Some("ativa"))).valid
  {
    assert UpperChar('a') == 'A' && UpperChar('t') == 'T' && UpperChar('i') == 'I' && UpperChar('v') == 'V';
    UpperCons('a', "");
    assert Upper("a") == "A";
    UpperCons('v', "a");
    assert Upper("va") == "VA";
    UpperCons('i', "va");
    assert Upper("iva") == "IVA";
    UpperCons('t', "iva");
    assert Upper("tiva") == "TIVA";
    UpperCons('a', "tiva");
    assert Upper("ativa") == "ATIVA";
    ClassifyValidIff(Responded(200, Some("ativa")));
  }

  /** Upper-casing follows Python's full case mapping: a situation "ß" is reported as "SS". */
  lemma SharpSReportedAsDoubleS()
    ensures Classify(Responded(200, Some("ß"))).status == "SS"
  {
    assert "ß" == ['ß'] + [];
    assert Upper("ß") == "SS";
  }
}
