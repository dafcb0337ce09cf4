/** The delete-confirmation state shared by the invoice and company list pages
    (app/notas-fiscais/page.tsx, app/empresas/page.tsx): the list, the id
    waiting for confirmation, and whether the dialog is open. */
module DeleteList {
  import opened Wrappers
  import opened Records

  class ListPage<T(!new)> {
    var items: seq<T>
    var deleteId: Option<int>
    var isDialogOpen: bool
    const idOf: T -> int

    constructor (initial: seq<T>, idOf: T -> int)
      ensures items == initial && this.idOf == idOf
      ensures deleteId == None && !isDialogOpen
    {
      items := initial;
      deleteId := None;
      isDialogOpen := false;
      this.idOf := idOf;
    }

    /** `handleDelete`: the id waits for confirmation and the dialog opens;
      the list is untouched. */
    method HandleDelete(id: int)
      modifies this
      ensures deleteId == Some(id) && isDialogOpen
      ensures items == old(items)
    {
      deleteId := Some(id);
      isDialogOpen := true;
    }

    /** `confirmDelete`: with a pending id, exactly the records with that id
      go, the others keep their order, and the dialog closes; without one
      nothing changes. */
    method ConfirmDelete()
      modifies this
      ensures old(deleteId).Some? ==>
        items == WithoutId(old(items), old(deleteId).value, idOf) && !isDialogOpen && deleteId.None?
      ensures old(deleteId).None? ==>
        items == old(items) && isDialogOpen == old(isDialogOpen) && deleteId == old(deleteId)
    {
      if deleteId.Some? {
        items := WithoutId(items, deleteId.value, idOf);
        isDialogOpen := false;
        deleteId := None;
      }
    }

    /** `cancelDelete`: the dialog closes and the pending id is forgotten. */
    method CancelDelete()
      modifies this
      ensures !isDialogOpen && deleteId.None?
      ensures items == old(items)
    {
      isDialogOpen := false;
      deleteId := None;
    }
  }
}
