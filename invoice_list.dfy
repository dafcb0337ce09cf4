/** The invoice list page (app/notas-fiscais/page.tsx): sample invoices,
    the status badge, the actions offered per row, and the delete dialog. */
module InvoiceList {
  import opened Wrappers
  import opened Records
  import opened DeleteList

  datatype Invoice = Invoice(id: int, number: string, company: string, date: string, value: string, status: string)

  function InvoiceId(i: Invoice): int
  {
    i.id
  }

  const Emitida: string := "Emitida"
  const Cancelada: string := "Cancelada"

  /** `initialInvoices` */
  const InitialInvoices: seq<Invoice> := [
    Invoice(1, "NF-e 000001", "Empresa ABC Ltda", "15/04/2023", "R$ 1.250,00", Emitida),
    Invoice(2, "NF-e 000002", "Com\U{00E9}rcio XYZ S.A.", "22/04/2023", "R$ 3.780,50", Cancelada),
    Invoice(3, "NF-e 000003", "Ind\U{00FA}stria 123 Ltda", "30/04/2023", "R$ 5.430,75", Emitida),
    Invoice(4, "NF-e 000004", "Servi\U{00E7}os Tech Ltda", "05/05/2023", "R$ 2.100,00", "Pendente")
  ]

  datatype Variant = Default | Destructive | Outline

  /** The badge of a status: issued, cancelled, anything else. */
  function BadgeVariant(status: string): (v: Variant)
    ensures v == Default <==> status == Emitida
    ensures v == Destructive <==> status == Cancelada
    ensures v == Outline <==> status != Emitida && status != Cancelada
  {
    if status == Emitida then Default else if status == Cancelada then Destructive else Outline
  }

  /** Edit and delete are offered for every invoice that is not cancelled. */
  predicate ActionsOffered(i: Invoice)
  {
    i.status != Cancelada
  }

  /** A cancelled invoice gets the destructive badge and no actions; every
      other one gets its actions. */
  lemma ActionsFollowBadge(i: Invoice)
    ensures ActionsOffered(i) <==> BadgeVariant(i.status) != Destructive
  {
  }

  /** The sample ids are distinct; every sample but the second one offers
      its actions. */
  lemma InitialInvoicesFacts()
    ensures UniqueIds(InitialInvoices, InvoiceId)
    ensures forall k :: 0 <= k < |InitialInvoices| ==> (ActionsOffered(InitialInvoices[k]) <==> k != 1)
  {
  }

  /** When the pending id is that of an invoice offering its actions (the
      only way the dialog opens), confirming never removes a cancelled
      invoice, provided ids are unique. */
  lemma CancelledSurviveDelete(invoices: seq<Invoice>, k: nat)
    requires k < |invoices| && UniqueIds(invoices, InvoiceId) && ActionsOffered(invoices[k])
    ensures forall i :: i in invoices && !ActionsOffered(i) ==> i in WithoutId(invoices, invoices[k].id, InvoiceId)
  {
    forall i | i in invoices && !ActionsOffered(i)
      ensures i.id != invoices[k].id
    {
      var j :| 0 <= j < |invoices| && invoices[j] == i;
      assert j != k;
    }
  }

  /** The page as mounted. */
  method Mount() returns (p: ListPage<Invoice>)
    ensures fresh(p) && p.items == InitialInvoices && p.idOf == InvoiceId
    ensures p.deleteId.None? && !p.isDialogOpen
  {
    p := new ListPage(InitialInvoices, InvoiceId);
  }

  /** Deleting a sample invoice from the mounted page leaves the other three
      in their order. */
  method DeleteSample(k: nat) returns (p: ListPage<Invoice>)
    requires k < |InitialInvoices|
    ensures fresh(p) && p.items == InitialInvoices[..k] + InitialInvoices[k + 1..] && |p.items| == 3
    ensures p.deleteId.None? && !p.isDialogOpen
  {
    p := Mount();
    p.HandleDelete(InitialInvoices[k].id);
    p.ConfirmDelete();
    InitialInvoicesFacts();
    WithoutPresentUniqueId(InitialInvoices, k, InvoiceId);
  }
}
