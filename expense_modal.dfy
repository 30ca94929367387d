/** The modal that records an expense or edits one: its initial values
    (the branch defaulting to a STORE user's own), its schema, the
    changed-field submission and its success effect. */
module ExpenseModal {
  import opened Common
  import opened Forms

  /** The modal's titles when editing an expense and when adding one. */
  const EDIT_TITLE: string := "Xərc məlumatlarını redaktə et"
  const CREATE_TITLE: string := "Xərc əlavə et"

  /** The title tells the two modes apart: it is the edit title exactly when editing. */
  function Title(isEdit: bool): (t: string)
    ensures t == EDIT_TITLE <==> isEdit
    ensures t == CREATE_TITLE <==> !isEdit
  {
    if isEdit then EDIT_TITLE else CREATE_TITLE
  }

  /** The fields of the form, in the order the submission considers them. */
  const FIELDS: seq<string> := ["name", "branch", "amount", "date"]

  /** The branch a form starts with: the expense's own branch, else a STORE
      user's branch, else none (""). */
  function DefaultBranch(d: Values, user: Option<User>): (r: Value)
    ensures Get(d, "branch").Ref? && Get(d, "branch").id != 0 ==> r == Num(Get(d, "branch").id)
    ensures !(Get(d, "branch").Ref? && Get(d, "branch").id != 0) && IsStore(user) && user.value.branchId != 0 ==>
              r == Num(user.value.branchId)
    ensures !(Get(d, "branch").Ref? && Get(d, "branch").id != 0) && !(IsStore(user) && user.value.branchId != 0) ==>
              r == Str("")
  {
    Or(Or(IdOf(Get(d, "branch")), if IsStore(user) then Num(user.value.branchId) else Nil), Str(""))
  }

  /** The initial value of one field. */
  function InitialValue(d: Values, user: Option<User>, f: string, today: string): Value {
    if f == "branch" then DefaultBranch(d, user)
    else if f == "date" then Or(Get(d, f), Str(today))
    else Or(Get(d, f), Str(""))
  }

  /** The initial values, one per field: the default branch; the expense's
      truthy name, amount and date; "" for a falsy or missing name or amount
      and today for a falsy or missing date. A new expense starts blank and
      dated today. */
  function InitialValues(data: Option<Values>, user: Option<User>, today: string): (r: Values)
    ensures r.Keys == set f | f in FIELDS
    ensures Get(r, "branch") == DefaultBranch(OrEmpty(data), user)
    ensures forall f :: f in FIELDS && f != "branch" ==>
              Get(r, f) == (if Truthy(Get(OrEmpty(data), f)) then Get(OrEmpty(data), f)
                            else if f == "date" then Str(today) else Str(""))
    ensures data.None? ==> Get(r, "name") == Str("") && Get(r, "amount") == Str("") && Get(r, "date") == Str(today)
  {
    map f | f in FIELDS :: InitialValue(OrEmpty(data), user, f, today)
  }

  /** The validation schema of the form. */
  const SCHEMA: Schema := [
    Rule("name", Text, true, None, None),
    Rule("branch", Number, false, None, None),
    Rule("amount", Number, true, Some(1), None),
    Rule("date", Text, true, None, None)
  ]

  /** The schema accepts the values exactly when a name is filled in, the
      branch is a number or left empty, the amount is a number of at least 1
      and a date is filled in. */
  lemma AcceptedMeans(values: Values)
    ensures Accepted(SCHEMA, values) <==>
              !Empty(Get(values, "name")) && !Get(values, "name").Ref? &&
              (Empty(Get(values, "branch")) || Get(values, "branch").Num?) &&
              Get(values, "amount").Num? && Get(values, "amount").n >= 1 &&
              !Empty(Get(values, "date")) && !Get(values, "date").Ref?
  {
    AcceptedByRules(SCHEMA[0..], values);
    CheckMeans(SCHEMA[0], Get(values, SCHEMA[0].field));
    AcceptedByRules(SCHEMA[1..], values);
    CheckMeans(SCHEMA[1], Get(values, SCHEMA[1].field));
    AcceptedByRules(SCHEMA[2..], values);
    CheckMeans(SCHEMA[2], Get(values, SCHEMA[2].field));
    AcceptedByRules(SCHEMA[3..], values);
    CheckMeans(SCHEMA[3], Get(values, SCHEMA[3].field));
    AcceptedByRules(SCHEMA[4..], values);
  }

  /** The schema lists exactly the fields the submission considers, in the same order. */
  lemma SchemaCoversSubmission()
    ensures FieldsOf(SCHEMA) == FIELDS
  {
    var r := FieldsOf(SCHEMA);
    assert forall i :: 0 <= i < |r| ==> r[i] == FIELDS[i];
  }

  /** `onSubmit`: a field is appended, in order, when there is no expense or
      the form's value differs from the expense's; the page then dispatches
      the create or the update of the expense. */
  method Submit(values: Values, data: Option<Values>) returns (fd: FormData)
    ensures fd == ChangedEntries(FIELDS, values, data)
  {
    fd := [];
    ghost var done: seq<string> := [];
    fd := AppendIfChanged(fd, done, "name", values, data);
    done := done + ["name"];
    fd := AppendIfChanged(fd, done, "branch", values, data);
    done := done + ["branch"];
    fd := AppendIfChanged(fd, done, "amount", values, data);
    done := done + ["amount"];
    fd := AppendIfChanged(fd, done, "date", values, data);
    done := done + ["date"];
    assert done == FIELDS;
  }

  /** A new expense of a STORE user is booked on the user's own branch
      unless the user has none, and the branch select is locked. */
  lemma StoreUserBooksOnOwnBranch(user: Option<User>, today: string)
    requires IsStore(user) && user.value.branchId != 0
    ensures Get(InitialValues(None, user, today), "branch") == Num(user.value.branchId)
    ensures BranchSelectDisabled(user)
  {
  }

  /** An expense that already has a branch keeps it, whoever edits it. */
  lemma ExpenseKeepsItsBranch(data: Values, user: Option<User>, today: string)
    requires Get(data, "branch").Ref? && Get(data, "branch").id != 0
    ensures Get(InitialValues(Some(data), user, today), "branch") == Num(Get(data, "branch").id)
  {
  }

  /** Saving an expense untouched, whose name, amount and date are filled in
      and whose branch is set, sends exactly its branch id. */
  lemma UntouchedSaveSendsBranch(data: Values, user: Option<User>, today: string)
    requires Get(data, "branch").Ref?
    requires Truthy(Get(data, "name")) && Truthy(Get(data, "amount")) && Truthy(Get(data, "date"))
    ensures ChangedEntries(FIELDS, InitialValues(Some(data), user, today), Some(data)) ==
              [("branch", Get(InitialValues(Some(data), user, today), "branch"))]
  {
    var v := InitialValues(Some(data), user, today);
    var d := Some(data);
    assert FIELDS[..0] == [];
    assert !Changed("name", v, d);
    ChangedEntriesStep(FIELDS, 0, v, d);
    ChangedEntriesStep(FIELDS, 1, v, d);
    assert !Changed(FIELDS[2], v, d) && !Changed(FIELDS[3], v, d);
    ChangedEntriesOfUnchangedTail(FIELDS, 2, v, d);
  }

  /** The branch select is locked for a STORE user. */
  predicate BranchSelectDisabled(user: Option<User>) {
    IsStore(user)
  }

  /** The success effect: the form is reset and closed once the request of
      the modal's own mode has succeeded. */
  method OnStatusChanged(f: ModalForm, show: bool, isEdit: bool, status: Status) returns (close: bool)
    modifies f
    ensures close <==> show && status.success &&
                       status.lastAction == Some(if isEdit then UpdateExpense else CreateExpense)
    ensures close ==> f.values == f.initialValues && f.errors == map[]
    ensures !close ==> f.values == old(f.values) && f.errors == old(f.errors)
  {
    close := f.OnStatusChanged(show, status, ExpectedAction(isEdit, CreateExpense, UpdateExpense));
  }
}
