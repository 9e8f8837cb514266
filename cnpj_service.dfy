/** The CNPJ validation entry point (backend/core/services/cnpj/service.py): a format gate in
    front of a registry provider. */
module CnpjService {
  import opened Text
  import opened CnpjProviders

  const InvalidFormat := CnpjResult(false, "INVALID_FORMAT", "CNPJ deve ter 14 dígitos.", NoDetails)

  /** A provider: the result it gives for a CNPJ. */
  type Provider = string -> CnpjResult

  /** The default provider, over the registry it queries. */
  function DefaultProvider(registry: Registry): Provider {
    s => ProviderValidate(s, registry)
  }

  /** `CNPJService.validate_cnpj`. */
  function ValidateCnpj(cnpj: string, provider: Provider): CnpjResult {
    var clean := Filter(cnpj, IsPyDigit);
    if |clean| != 14 then InvalidFormat else provider(clean)
  }

  /** Without exactly 14 digits the result is INVALID_FORMAT whatever the provider would answer:
      the provider is not consulted. */
  lemma {:induction false} FormatGate(cnpj: string, p1: Provider, p2: Provider)
    requires |Filter(cnpj, IsPyDigit)| != 14
    ensures ValidateCnpj(cnpj, p1) == ValidateCnpj(cnpj, p2) == InvalidFormat
    ensures !ValidateCnpj(cnpj, p1).valid
  {
  }

  /** With 14 digits the result is the provider's result on exactly those digits; for the default
      provider that is the classification of the registry's answer for those digits (its own
      digit filter changes nothing). */
  lemma {:induction false} DelegatesOnCleanDigits(cnpj: string, provider: Provider, registry: Registry)
    requires |Filter(cnpj, IsPyDigit)| == 14
    ensures ValidateCnpj(cnpj, provider) == provider(Filter(cnpj, IsPyDigit))
    ensures ValidateCnpj(cnpj, DefaultProvider(registry)) == Classify(registry(Filter(cnpj, IsPyDigit)))
  {
    FilterIdempotent(cnpj, IsPyDigit);
  }

  /** Punctuation does not matter: two inputs with the same digits get the same result. */
  lemma {:induction false} PunctuationIrrelevant(a: string, b: string, provider: Provider)
    requires Filter(a, IsPyDigit) == Filter(b, IsPyDigit)
    ensures ValidateCnpj(a, provider) == ValidateCnpj(b, provider)
  {
  }

  /** A valid result only ever comes from an input with exactly 14 digits; with the default
      provider, the registry also reported those digits as ATIVA. */
  lemma {:induction false} ValidNeedsFourteenDigits(cnpj: string, provider: Provider, registry: Registry)
    requires ValidateCnpj(cnpj, provider).valid || ValidateCnpj(cnpj, DefaultProvider(registry)).valid
    ensures |Filter(cnpj, IsPyDigit)| == 14
    ensures ValidateCnpj(cnpj, DefaultProvider(registry)).valid ==>
              var o := registry(Filter(cnpj, IsPyDigit));
              o.Responded? && o.statusCode == 200 && NormalizedSituation(o.situation) == "ATIVA"
  {
    if ValidateCnpj(cnpj, DefaultProvider(registry)).valid {
      DelegatesOnCleanDigits(cnpj, provider, registry);
      ClassifyValidIff(registry(Filter(cnpj, IsPyDigit)));
    }
  }
}
