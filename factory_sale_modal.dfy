/** The modal that records a sale of a factory product or edits one: its
    initial values, its schema, the changed-field submission and its
    success effect. */
module FactorySaleModal {
  import opened Common
  import opened Forms

  /** The modal's titles when editing a sale and when adding one. */
  const EDIT_TITLE: string := "Satış məlumatlarını redaktə et"
  const CREATE_TITLE: string := "Satış əlavə Et"

  /** The title tells the two modes apart: it is the edit title exactly when editing. */
  function Title(isEdit: bool): (t: string)
    ensures t == EDIT_TITLE <==> isEdit
    ensures t == CREATE_TITLE <==> !isEdit
  {
    if isEdit then EDIT_TITLE else CREATE_TITLE
  }

  /** The fields of the form, in the order the submission considers them. */
  const FIELDS: seq<string> := ["product", "price", "quantity", "date"]

  /** The initial value of one field: the id of the sale's product, its own
      price and quantity ("" when falsy) and its date (today when falsy). */
  function InitialValue(d: Values, f: string, today: string): Value {
    if f == "product" then Or(IdOf(Get(d, f)), Str(""))
    else if f == "date" then Or(Get(d, f), Str(today))
    else Or(Get(d, f), Str(""))
  }

  /** The initial values, one per field: the id of the sale's product,
      else ""; the sale's truthy price, quantity and date; "" for a falsy or
      missing price or quantity and today for a falsy or missing date. A new
      sale starts blank and dated today. */
  function InitialValues(data: Option<Values>, today: string): (r: Values)
    ensures r.Keys == set f | f in FIELDS
    ensures !Get(r, "product").Ref?
    ensures Get(r, "product") == (if Get(OrEmpty(data), "product").Ref? && Get(OrEmpty(data), "product").id != 0
                                  then Num(Get(OrEmpty(data), "product").id) else Str(""))
    ensures forall f :: f in FIELDS[1..] ==>
              Get(r, f) == (if Truthy(Get(OrEmpty(data), f)) then Get(OrEmpty(data), f)
                            else if f == "date" then Str(today) else Str(""))
    ensures data.None? ==>
              Get(r, "date") == Str(today) &&
              Get(r, "product") == Str("") && Get(r, "price") == Str("") && Get(r, "quantity") == Str("")
  {
    map f | f in FIELDS :: InitialValue(OrEmpty(data), f, today)
  }

  /** The validation schema of the form. */
  const SCHEMA: Schema := [
    Rule("product", Number, true, None, None),
    Rule("price", Number, true, Some(0), None),
    Rule("quantity", Number, true, Some(1), None),
    Rule("date", Text, true, None, None)
  ]

  /** The schema accepts the values exactly when a product is chosen, the
      price is a number of at least 0, the quantity a number of at least 1,
      and a date is filled in. */
  lemma AcceptedMeans(values: Values)
    ensures Accepted(SCHEMA, values) <==>
              Get(values, "product").Num? &&
              Get(values, "price").Num? && Get(values, "price").n >= 0 &&
              Get(values, "quantity").Num? && Get(values, "quantity").n >= 1 &&
              !Empty(Get(values, "date")) && !Get(values, "date").Ref?
  {
    AcceptedByRules(SCHEMA[0..], values);
    CheckMeans(SCHEMA[0], Get(values, SCHEMA[0].field));
    AcceptedByRules(SCHEMA[1..], values);
    CheckMeans(SCHEMA[1], Get(values, SCHEMA[1].field));
    AcceptedByRules(SCHEMA[2..], values);
    CheckMeans(SCHEMA[2], Get(values, SCHEMA[2].field));
    AcceptedByRules(SCHEMA[3..], values);
    CheckMeans(SCHEMA[3], Get(values, SCHEMA[3].field));
    AcceptedByRules(SCHEMA[4..], values);
  }

  /** The schema lists exactly the fields the submission considers, in the same order. */
  lemma SchemaCoversSubmission()
    ensures FieldsOf(SCHEMA) == FIELDS
  {
    var r := FieldsOf(SCHEMA);
    assert forall i :: 0 <= i < |r| ==> r[i] == FIELDS[i];
  }

  /** `onSubmit`: a field is appended, in order, when there is no sale or the
      form's value differs from the sale's; the page then dispatches the
      create or the update of the sale. */
  method Submit(values: Values, data: Option<Values>) returns (fd: FormData)
    ensures fd == ChangedEntries(FIELDS, values, data)
  {
    fd := [];
    ghost var done: seq<string> := [];
    fd := AppendIfChanged(fd, done, "product", values, data);
    done := done + ["product"];
    fd := AppendIfChanged(fd, done, "price", values, data);
    done := done + ["price"];
    fd := AppendIfChanged(fd, done, "quantity", values, data);
    done := done + ["quantity"];
    fd := AppendIfChanged(fd, done, "date", values, data);
    done := done + ["date"];
    assert done == FIELDS;
  }

  /** Saving the form untouched, for a sale whose price, quantity and date
      are filled in, sends exactly its product id: the sale holds the product
      as a nested record. */
  lemma UntouchedSaveSendsProduct(data: Values, today: string)
    requires Get(data, "product").Ref?
    requires forall f :: f in FIELDS[1..] ==> Truthy(Get(data, f))
    ensures ChangedEntries(FIELDS, InitialValues(Some(data), today), Some(data)) ==
              [("product", Get(InitialValues(Some(data), today), "product"))]
  {
    var v := InitialValues(Some(data), today);
    var d := Some(data);
    assert Changed(FIELDS[0], v, d);
    forall i | 1 <= i < |FIELDS|
      ensures !Changed(FIELDS[i], v, d)
    {
      assert FIELDS[i] in FIELDS[1..];
    }
    ChangedEntriesOfChangedPrefix(FIELDS, 1, v, d);
  }

  /** The success effect: the form is reset and closed once the request of
      the modal's own mode has succeeded. */
  method OnStatusChanged(f: ModalForm, show: bool, isEdit: bool, status: Status) returns (close: bool)
    modifies f
    ensures close <==> show && status.success &&
                       status.lastAction == Some(if isEdit then UpdateFactorySale else CreateFactorySale)
    ensures close ==> f.values == f.initialValues && f.errors == map[]
    ensures !close ==> f.values == old(f.values) && f.errors == old(f.errors)
  {
    close := f.OnStatusChanged(show, status, ExpectedAction(isEdit, CreateFactorySale, UpdateFactorySale));
  }
}
