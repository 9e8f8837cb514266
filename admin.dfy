/** The two computed columns of the professional admin list (backend/professionals/admin.py). */
module Admin {
  import opened Wrappers
  import opened Models
  import Views

  /** `name_display`: a PJ shows its legal name followed by the company name in parentheses. */
  function NameDisplay(f: Profile): string {
    if f.personType == "PJ" then f.name + " (" + PyStr(f.companyName) + ")" else f.name
  }

  /** `identifier`: the CPF of a PF, the CNPJ of anything else. */
  function Identifier(f: Profile): Option<string> {
    if f.personType == "PF" then f.cpf else f.cnpj
  }

  /** The displayed name is the plain name exactly for non-PJ records; a PJ's display starts with
      its name and ends with the company name in parentheses. */
  lemma {:induction false} NameDisplaySpec(f: Profile)
    ensures NameDisplay(f) == f.name <==> f.personType != "PJ"
    ensures f.personType == "PJ" ==>
              NameDisplay(f)[..|f.name|] == f.name
              && NameDisplay(f)[|f.name|..] == " (" + PyStr(f.companyName) + ")"
  {
    if f.personType == "PJ" {
      assert |NameDisplay(f)| > |f.name|;
      assert NameDisplay(f) == f.name + (" (" + PyStr(f.companyName) + ")");
    }
  }

  /** The admin list and the individual export pick the same document for PF and PJ records;
      for any other person type they disagree: the admin list shows the CNPJ, the export the CPF. */
  lemma {:induction false} IdentifierAgreesWithExport(f: Profile)
    ensures f.personType == "PF" || f.personType == "PJ" ==> Identifier(f) == Views.ExportIdentifier(f)
    ensures f.personType != "PF" && f.personType != "PJ" ==>
              Identifier(f) == f.cnpj && Views.ExportIdentifier(f) == f.cpf
  {
    assert "PF" != "PJ";
  }
}
