/** The modal that adds a line to the cart of a new order or edits one:
    its initial values read from the line, its schema, the changed-field
    submission, the product/supplier selects and its success effect. */
module CartProductModal {
  import opened Common
  import opened Forms

  /** The modal's titles when editing a line and when adding one. */
  const EDIT_TITLE: string := "Məhsul məlumatlarını redaktə et"
  const CREATE_TITLE: string := "Məhsul əlavə Et"

  /** The title tells the two modes apart: it is the edit title exactly when editing. */
  function Title(isEdit: bool): (t: string)
    ensures t == EDIT_TITLE <==> isEdit
    ensures t == CREATE_TITLE <==> !isEdit
  {
    if isEdit then EDIT_TITLE else CREATE_TITLE
  }

  /** The fields of the form, in the order the submission considers them. */
  const FIELDS: seq<string> := ["product", "supplier", "size", "price", "quantity"]

  /** The initial value of one field: the id of the line's product or
      supplier, and the line's own size, price and quantity, "" when falsy. */
  function InitialValue(d: Values, f: string): Value {
    if f == "product" || f == "supplier" then Or(IdOf(Get(d, f)), Str(""))
    else Or(Get(d, f), Str(""))
  }

  /** The initial values, one per field: the ids of the line's product and
      supplier, else ""; the line's truthy size, price and quantity, else "".
      With no line every field is "". */
  function InitialValues(data: Option<Values>): (r: Values)
    ensures r.Keys == set f | f in FIELDS
    ensures !Get(r, "product").Ref? && !Get(r, "supplier").Ref?
    ensures forall f :: f in FIELDS[..2] ==>
              Get(r, f) == (if Get(OrEmpty(data), f).Ref? && Get(OrEmpty(data), f).id != 0
                            then Num(Get(OrEmpty(data), f).id) else Str(""))
    ensures forall f :: f in FIELDS[2..] ==>
              Get(r, f) == (if Truthy(Get(OrEmpty(data), f)) then Get(OrEmpty(data), f) else Str(""))
    ensures data.None? ==> forall f :: f in FIELDS ==> Get(r, f) == Str("")
  {
    map f | f in FIELDS :: InitialValue(OrEmpty(data), f)
  }

  /** The longest size the form accepts. */
  const MAX_SIZE_LENGTH: nat := 255

  /** The validation schema of the form. */
  const SCHEMA: Schema := [
    Rule("product", Number, true, None, None),
    Rule("supplier", Number, true, None, None),
    Rule("size", Text, false, None, Some(MAX_SIZE_LENGTH)),
    Rule("price", Number, true, Some(0), None),
    Rule("quantity", Number, true, Some(1), None)
  ]

  /** The schema accepts the values exactly when a product and a supplier
      are chosen (numbers), the size is text of at most 255 characters or
      empty, the price is a number of at least 0 and the quantity a number of
      at least 1. */
  lemma AcceptedMeans(values: Values)
    ensures Accepted(SCHEMA, values) <==>
              Get(values, "product").Num? && Get(values, "supplier").Num? &&
              !Get(values, "size").Ref? &&
              !(Get(values, "size").Str? && |Get(values, "size").s| > MAX_SIZE_LENGTH) &&
              Get(values, "price").Num? && Get(values, "price").n >= 0 &&
              Get(values, "quantity").Num? && Get(values, "quantity").n >= 1
  {
    AcceptedByRules(SCHEMA[0..], values);
    CheckMeans(SCHEMA[0], Get(values, SCHEMA[0].field));
    AcceptedByRules(SCHEMA[1..], values);
    CheckMeans(SCHEMA[1], Get(values, SCHEMA[1].field));
    AcceptedByRules(SCHEMA[2..], values);
    CheckMeans(SCHEMA[2], Get(values, SCHEMA[2].field));
    AcceptedByRules(SCHEMA[3..], values);
    CheckMeans(SCHEMA[3], Get(values, SCHEMA[3].field));
    AcceptedByRules(SCHEMA[4..], values);
    CheckMeans(SCHEMA[4], Get(values, SCHEMA[4].field));
    AcceptedByRules(SCHEMA[5..], values);
  }

  /** The schema lists exactly the fields the submission considers, in the same order. */
  lemma SchemaCoversSubmission()
    ensures FieldsOf(SCHEMA) == FIELDS
  {
    var r := FieldsOf(SCHEMA);
    assert forall i :: 0 <= i < |r| ==> r[i] == FIELDS[i];
  }

  /** `onSubmit`: a field is appended, in order, when there is no line or
      the form's value differs from the line's; the cart container then
      dispatches the create or the update of the line. */
  method Submit(values: Values, data: Option<Values>) returns (fd: FormData)
    ensures fd == ChangedEntries(FIELDS, values, data)
  {
    fd := [];
    ghost var done: seq<string> := [];
    fd := AppendIfChanged(fd, done, "product", values, data);
    done := done + ["product"];
    fd := AppendIfChanged(fd, done, "supplier", values, data);
    done := done + ["supplier"];
    fd := AppendIfChanged(fd, done, "size", values, data);
    done := done + ["size"];
    fd := AppendIfChanged(fd, done, "price", values, data);
    done := done + ["price"];
    fd := AppendIfChanged(fd, done, "quantity", values, data);
    done := done + ["quantity"];
    assert done == FIELDS;
  }

  /** The line holds its product and supplier as nested records while the
      form holds their ids, so an edit always sends both. */
  lemma ProductAndSupplierAlwaysSent(values: Values, data: Values)
    requires Get(data, "product").Ref? && Get(data, "supplier").Ref?
    requires !Get(values, "product").Ref? && !Get(values, "supplier").Ref?
    ensures ("product", Get(values, "product")) in ChangedEntries(FIELDS, values, Some(data))
    ensures ("supplier", Get(values, "supplier")) in ChangedEntries(FIELDS, values, Some(data))
  {
    ChangedEntriesMembership(FIELDS, values, Some(data), "product", Get(values, "product"));
    ChangedEntriesMembership(FIELDS, values, Some(data), "supplier", Get(values, "supplier"));
  }

  /** Saving the form untouched, for a line whose size, price and quantity
      are all filled in, sends exactly its product id and supplier id. */
  lemma UntouchedSaveSendsProductAndSupplier(data: Values)
    requires Get(data, "product").Ref? && Get(data, "supplier").Ref?
    requires forall f :: f in FIELDS[2..] ==> Truthy(Get(data, f))
    ensures ChangedEntries(FIELDS, InitialValues(Some(data)), Some(data)) ==
              [("product", Get(InitialValues(Some(data)), "product")),
               ("supplier", Get(InitialValues(Some(data)), "supplier"))]
  {
    UntouchedIdsChanged(data);
    UntouchedDetailsUnchanged(data);
    ChangedEntriesOfChangedPair(FIELDS, InitialValues(Some(data)), Some(data));
  }

  /** The product and supplier ids the form opens with never equal the
      line's nested records. */
  lemma UntouchedIdsChanged(data: Values)
    requires Get(data, "product").Ref? && Get(data, "supplier").Ref?
    ensures Changed(FIELDS[0], InitialValues(Some(data)), Some(data))
    ensures Changed(FIELDS[1], InitialValues(Some(data)), Some(data))
  {
  }

  /** The size, price and quantity a filled-in line opens with are its own. */
  lemma UntouchedDetailsUnchanged(data: Values)
    requires forall f :: f in FIELDS[2..] ==> Truthy(Get(data, f))
    ensures forall i :: 2 <= i < |FIELDS| ==> !Changed(FIELDS[i], InitialValues(Some(data)), Some(data))
  {
    forall i | 2 <= i < |FIELDS|
      ensures !Changed(FIELDS[i], InitialValues(Some(data)), Some(data))
    {
      assert FIELDS[i] in FIELDS[2..];
    }
  }

  /** Choosing a product: a falsy choice is ignored; otherwise the supplier,
      who depends on the product, is cleared and the product set, even when
      the same product is chosen again. */
  method SelectProduct(f: ModalForm, choice: Value)
    modifies f
    ensures f.values == if Truthy(choice) then old(f.values)["supplier" := Str("")]["product" := choice]
                        else old(f.values)
    ensures Truthy(choice) ==> !SupplierSelectDisabled(f.values) && Get(f.values, "supplier") == Str("")
    ensures f.errors == old(f.errors) && f.alertError == old(f.alertError)
  {
    if Truthy(choice) {
      f.SetFieldValue("supplier", Str(""));
      f.SetFieldValue("product", choice);
    }
  }

  /** The supplier select is locked until a product is chosen. */
  predicate SupplierSelectDisabled(values: Values) {
    !Truthy(Get(values, "product"))
  }

  /** The success effect: the form is reset and closed once the request of
      the modal's own mode (the update when editing, the create otherwise)
      has succeeded. */
  method OnStatusChanged(f: ModalForm, show: bool, isEdit: bool, status: Status) returns (close: bool)
    modifies f
    ensures close <==> show && status.success &&
                       status.lastAction == Some(if isEdit then UpdateOrderCartItem else CreateOrderCartItem)
    ensures close ==> f.values == f.initialValues && f.errors == map[]
    ensures !close ==> f.values == old(f.values) && f.errors == old(f.errors)
  {
    close := f.OnStatusChanged(show, status, ExpectedAction(isEdit, CreateOrderCartItem, UpdateOrderCartItem));
  }
}
