/** The modal that edits an existing order: its initial values read from
    the order, its schema, the changed-field submission, the branch select
    and its success effect. */
module OrderEditModal {
  import opened Common
  import opened Forms

  /** The fields of the form, in the order the submission considers them. */
  const FIELDS: seq<string> := ["branch", "seller", "customer", "phone", "address", "discount",
                                "seller_share", "note", "sale_date"]

  /** The value a field other than the branch and the seller starts with
      when the order's own value is falsy or missing. */
  function Default(f: string, today: string): Value {
    if f == "discount" || f == "seller_share" then Num(0)
    else if f == "sale_date" then Str(today)
    else Str("")
  }

  /** The initial value of one field: the id of the order's branch or
      seller ("" when there is none), and the order's own value of any other
      field, or that field's default when the value is falsy. */
  function InitialValue(d: Values, f: string, today: string): Value {
    if f == "branch" || f == "seller" then Or(IdOf(Get(d, f)), Str(""))
    else Or(Get(d, f), Default(f, today))
  }

  /** The initial values, one per field of the form: the ids of the order's
      branch and seller, else ""; the order's truthy values; and for a
      falsy or missing value the field's default ("" for text, 0 for the
      discount and the seller's share, today for the sale date). With no
      order, every field takes its default. */
  function InitialValues(data: Option<Values>, today: string): (r: Values)
    ensures r.Keys == set f | f in FIELDS
    ensures !Get(r, "branch").Ref? && !Get(r, "seller").Ref?
    ensures forall f :: f in ["branch", "seller"] ==>
              Get(r, f) == (if Get(OrEmpty(data), f).Ref? && Get(OrEmpty(data), f).id != 0
                            then Num(Get(OrEmpty(data), f).id) else Str(""))
    ensures forall f :: f in FIELDS && f != "branch" && f != "seller" ==>
              Get(r, f) == (if Truthy(Get(OrEmpty(data), f)) then Get(OrEmpty(data), f) else Default(f, today))
    ensures data.None? ==> forall f :: f in FIELDS ==>
              Get(r, f) == (if f == "branch" || f == "seller" then Str("") else Default(f, today))
  {
    map f | f in FIELDS :: InitialValue(OrEmpty(data), f, today)
  }

  /** The validation schema of the form. */
  const SCHEMA: Schema := [
    Rule("branch", Number, true, None, None),
    Rule("seller", Number, true, None, None),
    Rule("customer", Text, true, None, None),
    Rule("phone", Text, true, None, None),
    Rule("address", Text, true, None, None),
    Rule("discount", Number, false, None, None),
    Rule("seller_share", Number, false, None, None),
    Rule("note", Text, false, None, None),
    Rule("sale_date", Text, true, None, None)
  ]

  /** The schema accepts the values exactly when a branch and a seller are
      numbers, the customer, phone, address and sale date are filled in, the
      discount and the seller's share are numbers or left empty, and no text
      field holds a nested record. */
  lemma AcceptedMeans(values: Values)
    ensures Accepted(SCHEMA, values) <==>
              Get(values, "branch").Num? && Get(values, "seller").Num? &&
              !Empty(Get(values, "customer")) && !Get(values, "customer").Ref? &&
              !Empty(Get(values, "phone")) && !Get(values, "phone").Ref? &&
              !Empty(Get(values, "address")) && !Get(values, "address").Ref? &&
              (Empty(Get(values, "discount")) || Get(values, "discount").Num?) &&
              (Empty(Get(values, "seller_share")) || Get(values, "seller_share").Num?) &&
              !Get(values, "note").Ref? &&
              !Empty(Get(values, "sale_date")) && !Get(values, "sale_date").Ref?
  {
    AcceptedByRules(SCHEMA[0..], values);
    CheckMeans(SCHEMA[0], Get(values, SCHEMA[0].field));
    AcceptedByRules(SCHEMA[1..], values);
    CheckMeans(SCHEMA[1], Get(values, SCHEMA[1].field));
    AcceptedByRules(SCHEMA[2..], values);
    CheckMeans(SCHEMA[2], Get(values, SCHEMA[2].field));
    AcceptedByRules(SCHEMA[3..], values);
    CheckMeans(SCHEMA[3], Get(values, SCHEMA[3].field));
    AcceptedByRules(SCHEMA[4..], values);
    CheckMeans(SCHEMA[4], Get(values, SCHEMA[4].field));
    AcceptedByRules(SCHEMA[5..], values);
    CheckMeans(SCHEMA[5], Get(values, SCHEMA[5].field));
    AcceptedByRules(SCHEMA[6..], values);
    CheckMeans(SCHEMA[6], Get(values, SCHEMA[6].field));
    AcceptedByRules(SCHEMA[7..], values);
    CheckMeans(SCHEMA[7], Get(values, SCHEMA[7].field));
    AcceptedByRules(SCHEMA[8..], values);
    CheckMeans(SCHEMA[8], Get(values, SCHEMA[8].field));
    AcceptedByRules(SCHEMA[9..], values);
  }

  /** The schema lists exactly the fields the submission considers, in the same order. */
  lemma SchemaCoversSubmission()
    ensures FieldsOf(SCHEMA) == FIELDS
  {
    var r := FieldsOf(SCHEMA);
    assert forall i :: 0 <= i < |r| ==> r[i] == FIELDS[i];
  }

  /** `onSubmit`: a field is appended, in order, when there is no order or
      the form's value differs from the order's; the container then
      dispatches the update of the order with this form data. */
  method Submit(values: Values, data: Option<Values>) returns (fd: FormData)
    ensures fd == ChangedEntries(FIELDS, values, data)
  {
    fd := [];
    ghost var done: seq<string> := [];
    fd := AppendIfChanged(fd, done, "branch", values, data);
    done := done + ["branch"];
    fd := AppendIfChanged(fd, done, "seller", values, data);
    done := done + ["seller"];
    fd := AppendIfChanged(fd, done, "customer", values, data);
    done := done + ["customer"];
    fd := AppendIfChanged(fd, done, "phone", values, data);
    done := done + ["phone"];
    fd := AppendIfChanged(fd, done, "address", values, data);
    done := done + ["address"];
    fd := AppendIfChanged(fd, done, "discount", values, data);
    done := done + ["discount"];
    fd := AppendIfChanged(fd, done, "seller_share", values, data);
    done := done + ["seller_share"];
    fd := AppendIfChanged(fd, done, "note", values, data);
    done := done + ["note"];
    fd := AppendIfChanged(fd, done, "sale_date", values, data);
    done := done + ["sale_date"];
    assert done == FIELDS;
  }

  /** The order holds its branch and seller as nested records while the form
      holds their ids, so an edit always sends the branch and the seller,
      changed or not. */
  lemma BranchAndSellerAlwaysSent(values: Values, data: Values)
    requires Get(data, "branch").Ref? && Get(data, "seller").Ref?
    requires !Get(values, "branch").Ref? && !Get(values, "seller").Ref?
    ensures ("branch", Get(values, "branch")) in ChangedEntries(FIELDS, values, Some(data))
    ensures ("seller", Get(values, "seller")) in ChangedEntries(FIELDS, values, Some(data))
  {
    ChangedEntriesMembership(FIELDS, values, Some(data), "branch", Get(values, "branch"));
    ChangedEntriesMembership(FIELDS, values, Some(data), "seller", Get(values, "seller"));
  }

  /** Saving the form untouched, for an order whose other fields are all
      filled in, sends exactly its branch id and seller id, in that order. */
  lemma {:induction false} UntouchedSaveSendsBranchAndSeller(data: Values, today: string)
    requires Get(data, "branch").Ref? && Get(data, "seller").Ref?
    requires forall f :: f in FIELDS[2..] ==> Truthy(Get(data, f))
    ensures ChangedEntries(FIELDS, InitialValues(Some(data), today), Some(data)) ==
              [("branch", Get(InitialValues(Some(data), today), "branch")),
               ("seller", Get(InitialValues(Some(data), today), "seller"))]
  {
    UntouchedIdsChanged(data, today);
    UntouchedDetailsUnchanged(data, today);
    ChangedEntriesOfChangedPair(FIELDS, InitialValues(Some(data), today), Some(data));
  }

  /** The branch and seller ids the form opens with never equal the order's
      nested records. */
  lemma UntouchedIdsChanged(data: Values, today: string)
    requires Get(data, "branch").Ref? && Get(data, "seller").Ref?
    ensures Changed(FIELDS[0], InitialValues(Some(data), today), Some(data))
    ensures Changed(FIELDS[1], InitialValues(Some(data), today), Some(data))
  {
  }

  /** The other fields a filled-in order opens with are its own. */
  lemma UntouchedDetailsUnchanged(data: Values, today: string)
    requires forall f :: f in FIELDS[2..] ==> Truthy(Get(data, f))
    ensures forall i :: 2 <= i < |FIELDS| ==> !Changed(FIELDS[i], InitialValues(Some(data), today), Some(data))
  {
    forall i | 2 <= i < |FIELDS|
      ensures !Changed(FIELDS[i], InitialValues(Some(data), today), Some(data))
    {
      assert FIELDS[i] in FIELDS[2..];
    }
  }

  /** A text field the order leaves empty (null) opens as "" and so is sent
      even when the user never touched it. */
  lemma EmptyNoteIsResent(data: Values, today: string)
    requires Get(data, "note") == Nil
    ensures ("note", Str("")) in ChangedEntries(FIELDS, InitialValues(Some(data), today), Some(data))
  {
    var v := InitialValues(Some(data), today);
    ChangedEntriesMembership(FIELDS, v, Some(data), "note", Str(""));
  }

  /** The branch select is locked for a STORE user. */
  predicate BranchSelectDisabled(user: Option<User>) {
    IsStore(user)
  }

  /** Choosing a branch: as in the new-order form, a new branch clears the seller. */
  method SelectBranch(f: ModalForm, choice: Value)
    modifies f
    ensures !Truthy(choice) ==> f.values == old(f.values)
    ensures Truthy(choice) && choice != Get(old(f.values), "branch") ==>
              f.values == old(f.values)["branch" := choice]["seller" := Str("")]
    ensures Truthy(choice) && choice == Get(old(f.values), "branch") ==>
              f.values == old(f.values)["branch" := choice]
    ensures f.errors == old(f.errors) && f.alertError == old(f.alertError)
  {
    f.SelectWithDependent("branch", "seller", choice);
  }

  /** The success effect: the form is reset and closed once the update of
      the order has succeeded. */
  method OnStatusChanged(f: ModalForm, show: bool, status: Status) returns (close: bool)
    modifies f
    ensures close <==> show && status.success && status.lastAction == Some(UpdateOrder)
    ensures close ==> f.values == f.initialValues && f.errors == map[]
    ensures !close ==> f.values == old(f.values) && f.errors == old(f.errors)
  {
    close := f.OnStatusChanged(show, status, UpdateOrder);
  }
}
