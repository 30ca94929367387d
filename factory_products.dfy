/** The factory products page: its document title and the selection state
    machine that opens the product form and sends the create, update and
    delete requests of factory products. */
module FactoryProducts {
  import opened Common
  import opened Config
  import opened ItemPages

  /** The page's own title. */
  const TITLE: string := "Məhsullar"

  /** The document title of the page. */
  function DocumentTitle(projectName: string): (r: string)
    ensures TitleOf(r, projectName) == TITLE
    ensures r == TITLE + TITLE_SEPARATOR + projectName
  {
    PageTitleRoundTrip(TITLE, projectName);
    PageTitle(TITLE, projectName)
  }

  /** The page state, wired to the factory product requests. */
  method NewProductsPage() returns (p: ItemPage)
    ensures fresh(p)
    ensures p.create == CreateFactoryProduct && p.update == UpdateFactoryProduct && p.delete == DeleteFactoryProduct
    ensures p.item == None && !p.formModal && !p.deleteModal && p.dispatched == []
  {
    p := new ItemPage(CreateFactoryProduct, UpdateFactoryProduct, DeleteFactoryProduct);
  }

  /** Editing a product and saving sends the update of that product, and
      the form modal, which waits for that update, is the edit form. */
  method EditThenSave(p: ItemPage, x: Item, fd: FormData)
    requires p.update == UpdateFactoryProduct
    modifies p
    ensures p.dispatched == old(p.dispatched) + [Update(UpdateFactoryProduct, x.id, fd)]
    ensures p.IsEdit() && p.ModalData() == Some(x.fields) && p.formModal
  {
    p.OnUpdate(x);
    p.HandleSubmit(fd);
  }

  /** Asking to delete a product and confirming sends exactly one delete of
      that product, even after an edit was opened and abandoned. */
  method DeleteAfterAbandonedEdit(p: ItemPage, x: Item, y: Item)
    requires p.delete == DeleteFactoryProduct
    modifies p
    ensures p.dispatched == old(p.dispatched) + [Delete(DeleteFactoryProduct, y.id)]
    ensures !p.deleteModal && !p.formModal
  {
    p.OnUpdate(x);
    p.CloseFormModal();
    p.OnDelete(y);
    p.HandleDelete();
  }
}
