/** Choice of the e-mail provider from the settings (backend/core/services/email/factory.py). */
module EmailFactory {
  import opened Text
  import opened Wrappers

  /** The settings the choice reads; `None` is a setting that is not defined. */
  datatype EmailSettings = EmailSettings(
    mode: Option<string>,
    provider: Option<string>,
    hostPassword: Option<string>,
    sendgridKey: Option<string>)

  datatype ProviderKind = Console | Django | SendGrid

  /** Python truthiness of an optional string: present and non-empty. */
  predicate Truthy(o: Option<string>) {
    o.Some? && o.value != ""
  }

  /** EMAIL_MODE, lower-cased, 'dev' when undefined. */
  function Mode(s: EmailSettings): string {
    Lower(s.mode.GetOr("dev"))
  }

  /** EMAIL_PROVIDER as given (not lower-cased), defaulting on the mode. */
  function ProviderName(s: EmailSettings): string {
    s.provider.GetOr(if Mode(s) == "dev" then "console" else "django")
  }

  /** `get_email_service`: which provider the service is built around. */
  function GetEmailProvider(s: EmailSettings): ProviderKind {
    var name := ProviderName(s);
    if name == "django" then
      if !Truthy(s.hostPassword) && Mode(s) == "prod" then Console else Django
    else if name == "sendgrid" && Truthy(s.sendgridKey) && StartsWith(s.sendgridKey.value, "SG.") then
      SendGrid
    else Console
  }

  /** SendGrid is chosen exactly when it is named and the API key starts with "SG.". */
  lemma SendGridIff(s: EmailSettings)
    ensures GetEmailProvider(s) == SendGrid <==>
              ProviderName(s) == "sendgrid" && s.sendgridKey.Some? && StartsWith(s.sendgridKey.value, "SG.")
  {
    if ProviderName(s) == "sendgrid" && s.sendgridKey.Some? && StartsWith(s.sendgridKey.value, "SG.") {
      assert s.sendgridKey.value[..3] == "SG.";
    }
  }

  /** Django is chosen exactly when it is named and the SMTP password is set or the mode is not
      'prod'; named without a password in 'prod', the console takes over. */
  lemma DjangoIff(s: EmailSettings)
    ensures GetEmailProvider(s) == Django <==>
              ProviderName(s) == "django" && (Truthy(s.hostPassword) || Mode(s) != "prod")
    ensures ProviderName(s) == "django" && !Truthy(s.hostPassword) && Mode(s) == "prod" ==>
              GetEmailProvider(s) == Console
  {
  }

  /** Any provider name other than 'django' and 'sendgrid' gives the console. */
  lemma OtherNamesGiveConsole(s: EmailSettings)
    requires ProviderName(s) != "django" && ProviderName(s) != "sendgrid"
    ensures GetEmailProvider(s) == Console
  {
  }

  /** With nothing configured the mode is 'dev' and the provider the console; with only a
      non-dev mode configured the provider name is 'django'. */
  lemma {:induction false} Defaults(s: EmailSettings)
    ensures s.mode.None? ==> Mode(s) == "dev"
    ensures s.mode.None? && s.provider.None? ==> GetEmailProvider(s) == Console
    ensures s.provider.None? && Mode(s) != "dev" ==> ProviderName(s) == "django"
  {
    if s.mode.None? {
      var m := Lower("dev");
      assert m[0] == LowerChar('d') == 'd';
      assert m[1] == LowerChar('e') == 'e';
      assert m[2] == LowerChar('v') == 'v';
      assert m == "dev";
    }
  }

  /** Modes are compared case-insensitively: 'PROD' behaves like 'prod'. */
  lemma {:induction false} ModeIgnoresCase(s: EmailSettings)
    requires s.mode == Some("PROD")
    ensures Mode(s) == "prod"
  {
    var m := Lower("PROD");
    assert m[0] == LowerChar('P') == 'p';
    assert m[1] == LowerChar('R') == 'r';
    assert m[2] == LowerChar('O') == 'o';
    assert m[3] == LowerChar('D') == 'd';
    assert m == "prod";
  }
}
