/** The company list page (app/empresas/page.tsx): sample companies and the
    delete dialog. */
module CompanyList {
  import opened Wrappers
  import opened Records
  import opened DeleteList
  import CompanyForm

  datatype Company = Company(id: int, name: string, cnpj: string, address: string)

  function CompanyId(c: Company): int
  {
    c.id
  }

  /** `initialCompanies` */
  const InitialCompanies: seq<Company> := [
    Company(1, "Empresa ABC Ltda", "12.345.678/0001-90", "Av. Paulista, 1000, S\U{00E3}o Paulo - SP"),
    Company(2, "Com\U{00E9}rcio XYZ S.A.", "98.765.432/0001-10", "Rua Augusta, 500, S\U{00E3}o Paulo - SP"),
    Company(3, "Ind\U{00FA}stria 123 Ltda", "45.678.901/0001-23", "Av. Brasil, 2000, Rio de Janeiro - RJ"),
    Company(4, "Servi\U{00E7}os Tech Ltda", "34.567.890/0001-45", "Rua da Informa\U{00E7}\U{00E3}o, 404, Belo Horizonte - MG")
  ]

  /** The sample ids are distinct and every sample CNPJ is in the format the
      registration form demands. */
  lemma InitialCompaniesFacts()
    ensures UniqueIds(InitialCompanies, CompanyId)
    ensures forall k :: 0 <= k < |InitialCompanies| ==> CompanyForm.MatchesMask(InitialCompanies[k].cnpj, CompanyForm.CnpjMask)
  {
  }

  /** The page as mounted. */
  method Mount() returns (p: ListPage<Company>)
    ensures fresh(p) && p.items == InitialCompanies && p.idOf == CompanyId
    ensures p.deleteId.None? && !p.isDialogOpen
  {
    p := new ListPage(InitialCompanies, CompanyId);
  }

  /** A confirmed delete of a sample company leaves exactly the other three,
      in their order. */
  method DeleteSample(k: nat) returns (p: ListPage<Company>)
    requires k < |InitialCompanies|
    ensures fresh(p) && p.items == InitialCompanies[..k] + InitialCompanies[k + 1..] && |p.items| == 3
    ensures p.deleteId.None? && !p.isDialogOpen
  {
    p := Mount();
    p.HandleDelete(InitialCompanies[k].id);
    p.ConfirmDelete();
    InitialCompaniesFacts();
    WithoutPresentUniqueId(InitialCompanies, k, CompanyId);
  }

  /** A cancelled dialog followed by a confirmation removes nothing. */
  method CancelThenConfirm(id: int) returns (p: ListPage<Company>)
    ensures fresh(p) && p.items == InitialCompanies
  {
    p := Mount();
    p.HandleDelete(id);
    p.CancelDelete();
    p.ConfirmDelete();
  }
}
