/** The selection state machine that the cart table of a new order and the
    factory products page share: the selected record and two modal flags
    decide whether a submission creates or updates, and whether a delete is
    sent at all. */
module ItemPages {
  import opened Common
  import opened Forms

  /** A record a page lists: its id and the fields its form reads. */
  datatype Item = Item(id: int, fields: Values)

  /** A page of records with a create/edit modal and a delete confirmation. */
  class ItemPage {
    const create: Thunk
    const update: Thunk
    const delete: Thunk
    var item: Option<Item>
    var formModal: bool
    var deleteModal: bool
    var dispatched: seq<Dispatch>

    /** Nothing selected, both modals closed, nothing sent. */
    constructor (create: Thunk, update: Thunk, delete: Thunk)
      ensures this.create == create && this.update == update && this.delete == delete
      ensures item == None && !formModal && !deleteModal && dispatched == []
    {
      this.create := create;
      this.update := update;
      this.delete := delete;
      item := None;
      formModal := false;
      deleteModal := false;
      dispatched := [];
    }

    /** The form modal edits exactly when a record is selected (`item !== null`). */
    predicate IsEdit()
      reads this
    {
      item.Some?
    }

    /** The record the form modal reads (`data={item}`). */
    function ModalData(): (d: Option<Values>)
      reads this
      ensures d.Some? <==> IsEdit()
      ensures d.Some? ==> d.value == item.value.fields
    {
      if item.Some? then Some(item.value.fields) else None
    }

    /** `onCreate`: nothing selected, form modal open. */
    method OnCreate()
      modifies this
      ensures item == None && formModal && !IsEdit()
      ensures deleteModal == old(deleteModal) && dispatched == old(dispatched)
    {
      item := None;
      formModal := true;
    }

    /** `onUpdate(x)`: x selected, form modal open. */
    method OnUpdate(x: Item)
      modifies this
      ensures item == Some(x) && formModal && IsEdit()
      ensures deleteModal == old(deleteModal) && dispatched == old(dispatched)
    {
      item := Some(x);
      formModal := true;
    }

    /** `handleSubmit`: the update of the selected record when there is one,
        the create otherwise; the request sent is the one the form modal
        waits for before it closes. */
    method HandleSubmit(fd: FormData)
      modifies this
      ensures dispatched == old(dispatched) +
                [if item.Some? then Update(update, item.value.id, fd) else Create(create, fd)]
      ensures dispatched[|dispatched| - 1].thunk == ExpectedAction(IsEdit(), create, update)
      ensures item == old(item) && formModal == old(formModal) && deleteModal == old(deleteModal)
    {
      if item.Some? {
        dispatched := dispatched + [Update(update, item.value.id, fd)];
      } else {
        dispatched := dispatched + [Create(create, fd)];
      }
    }

    /** `toggle` of the form modal. */
    method CloseFormModal()
      modifies this
      ensures !formModal
      ensures item == old(item) && deleteModal == old(deleteModal) && dispatched == old(dispatched)
    {
      formModal := false;
    }

    /** `onDelete(x)`: x selected, delete confirmation open. */
    method OnDelete(x: Item)
      modifies this
      ensures item == Some(x) && deleteModal
      ensures formModal == old(formModal) && dispatched == old(dispatched)
    {
      item := Some(x);
      deleteModal := true;
    }

    /** `handleDelete`: the delete of the selected record, if any; the
        confirmation closes either way. */
    method HandleDelete()
      modifies this
      ensures dispatched == old(dispatched) + (if item.Some? then [Delete(delete, item.value.id)] else [])
      ensures !deleteModal
      ensures item == old(item) && formModal == old(formModal)
    {
      if item.Some? {
        dispatched := dispatched + [Delete(delete, item.value.id)];
      }
      deleteModal := false;
    }

    /** `onClose` of the delete confirmation. */
    method CloseDeleteModal()
      modifies this
      ensures !deleteModal
      ensures item == old(item) && formModal == old(formModal) && dispatched == old(dispatched)
    {
      deleteModal := false;
    }
  }
}
