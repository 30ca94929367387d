/** What every create/edit modal of the dashboard shares: a declarative
    validation schema checked the way the form library checks it, the
    changed-field diff that decides which fields a submission carries, and
    the form state the modals' effects update (values, field errors and the
    generic alert). */
module Forms {
  import opened Common

  // ---------------------------------------------------------------------------
  // Validation schemas

  /** A field is validated either as text or as a number. */
  datatype Kind = Text | Number

  /** One line of a schema: the field, its kind, whether it is required, the
      least number it accepts and the most characters it accepts. */
  datatype Rule = Rule(field: string, kind: Kind, required: bool, min: Option<int>, maxLength: Option<nat>)

  type Schema = seq<Rule>

  /** Why a field is refused. */
  datatype Problem = Missing | NotANumber | TooSmall | TooLong

  /** The form library turns an empty string into "no value" before the
      schema runs, so a field is empty when it is undefined or "". */
  predicate Empty(v: Value) {
    v == Nil || v == Str("")
  }

  /** The problem a rule finds with a value, if any. */
  function Check(rule: Rule, v: Value): (r: Option<Problem>)
    ensures r == Some(Missing) <==> Empty(v) && rule.required
    ensures r == Some(NotANumber) <==> !Empty(v) && (if rule.kind == Number then !v.Num? else v.Ref?)
    ensures r == Some(TooSmall) <==>
              !Empty(v) && rule.kind == Number && v.Num? && rule.min.Some? && v.n < rule.min.value
    ensures r == Some(TooLong) <==>
              !Empty(v) && rule.kind == Text && v.Str? && rule.maxLength.Some? && |v.s| > rule.maxLength.value
  {
    if Empty(v) then
      (if rule.required then Some(Missing) else None)
    else
      match rule.kind
      case Text =>
        if v.Str? && rule.maxLength.Some? && |v.s| > rule.maxLength.value then Some(TooLong)
        else if v.Ref? then Some(NotANumber)
        else None
      case Number =>
        if !v.Num? then Some(NotANumber)
        else if rule.min.Some? && v.n < rule.min.value then Some(TooSmall)
        else None
  }

  /** The field errors of a form, in schema order. */
  function Errors(schema: Schema, values: Values): FormErrors
    decreases |schema|
  {
    if schema == [] then []
    else
      var rest := Errors(schema[1..], values);
      match Check(schema[0], Get(values, schema[0].field))
      case None => rest
      case Some(p) => [(schema[0].field, p)] + rest
  }

  type FormErrors = seq<(string, Problem)>

  /** A form is submitted only when its schema finds no error. */
  predicate Accepted(schema: Schema, values: Values) {
    Errors(schema, values) == []
  }

  /** Each field error is that of a rule of the schema, naming the rule's
      field and the problem the rule finds with the field's value; there is
      at most one error per rule. */
  lemma {:induction false} ErrorsNameFailingRules(schema: Schema, values: Values)
    ensures |Errors(schema, values)| <= |schema|
    ensures forall k :: 0 <= k < |Errors(schema, values)| ==>
              exists i :: 0 <= i < |schema| && schema[i].field == Errors(schema, values)[k].0
                          && Check(schema[i], Get(values, schema[i].field)) == Some(Errors(schema, values)[k].1)
    decreases |schema|
  {
    if schema != [] {
      var rest := Errors(schema[1..], values);
      ErrorsNameFailingRules(schema[1..], values);
      var r := Errors(schema, values);
      forall k | 0 <= k < |r|
        ensures exists i :: 0 <= i < |schema| && schema[i].field == r[k].0
                            && Check(schema[i], Get(values, schema[i].field)) == Some(r[k].1)
      {
        var off := |r| - |rest|;
        if k < off {
          assert r[k] == (schema[0].field, Check(schema[0], Get(values, schema[0].field)).value);
        } else {
          assert r[k] == rest[k - off];
          var i :| 0 <= i < |schema[1..]| && schema[1..][i].field == rest[k - off].0
                   && Check(schema[1..][i], Get(values, schema[1..][i].field)) == Some(rest[k - off].1);
          assert schema[i + 1] == schema[1..][i];
        }
      }
    }
  }

  /** A schema accepts the values exactly when every one of its rules does. */
  lemma {:induction false} AcceptedIffEveryRule(schema: Schema, values: Values)
    ensures Accepted(schema, values) <==>
            forall i :: 0 <= i < |schema| ==> Check(schema[i], Get(values, schema[i].field)).None?
    decreases |schema|
  {
    if schema != [] {
      AcceptedIffEveryRule(schema[1..], values);
      assert forall i :: 1 <= i < |schema| ==> schema[i] == schema[1..][i - 1];
    }
  }

  /** A schema is checked rule by rule: it accepts the values when its first
      rule does and the remaining rules accept them too. */
  lemma AcceptedByRules(schema: Schema, values: Values)
    ensures schema == [] ==> Accepted(schema, values)
    ensures schema != [] ==>
              (Accepted(schema, values) <==>
               Check(schema[0], Get(values, schema[0].field)).None? && Accepted(schema[1..], values))
  {
  }

  /** What one rule accepts: an empty value exactly when the field is
      optional; otherwise a number at or above the least one for a number
      rule, and text no longer than the most characters for a text rule. */
  lemma CheckMeans(rule: Rule, v: Value)
    ensures rule.kind == Number ==>
              (Check(rule, v).None? <==>
               (Empty(v) && !rule.required) || (v.Num? && (rule.min.Some? ==> v.n >= rule.min.value)))
    ensures rule.kind == Text ==>
              (Check(rule, v).None? <==>
               (Empty(v) && !rule.required) ||
               (!Empty(v) && !v.Ref? && !(v.Str? && rule.maxLength.Some? && |v.s| > rule.maxLength.value)))
  {
  }

  /** The fields a schema names, in order. */
  function FieldsOf(schema: Schema): (r: seq<string>)
    ensures |r| == |schema|
    ensures forall i :: 0 <= i < |schema| ==> r[i] == schema[i].field
  {
    seq(|schema|, i requires 0 <= i < |schema| => schema[i].field)
  }

  // ---------------------------------------------------------------------------
  // Submitted fields

  /** Whether a field goes into a submission: always when there is no
      original record, otherwise when the form's value is not the record's
      value (`!data || values[f] !== data[f]`). A nested record in `data`
      (a `Ref`) never equals the id the form holds for it. */
  predicate Changed(field: string, values: Values, data: Option<Values>) {
    data.None? || Get(values, field) != Get(data.value, field)
  }

  /** The entries a changed-field submission carries, field by field in the
      order given: the reference the modals' `onSubmit` handlers are proved
      against. */
  function ChangedEntries(fields: seq<string>, values: Values, data: Option<Values>): FormData
    decreases |fields|
  {
    if fields == [] then []
    else
      var last := fields[|fields| - 1];
      ChangedEntries(fields[..|fields| - 1], values, data)
      + (if Changed(last, values, data) then [(last, Get(values, last))] else [])
  }

  /** Considering one more field appends its entry when it changed. */
  lemma ChangedEntriesStep(fields: seq<string>, k: nat, values: Values, data: Option<Values>)
    requires k < |fields|
    ensures ChangedEntries(fields[..k + 1], values, data) ==
              ChangedEntries(fields[..k], values, data)
              + (if Changed(fields[k], values, data) then [(fields[k], Get(values, fields[k]))] else [])
  {
    assert fields[..k + 1][..k] == fields[..k];
  }

  /** Fields after position k that did not change add nothing to the submission. */
  lemma {:induction false} ChangedEntriesOfUnchangedTail(fields: seq<string>, k: nat, values: Values, data: Option<Values>)
    requires k <= |fields|
    requires forall i :: k <= i < |fields| ==> !Changed(fields[i], values, data)
    ensures ChangedEntries(fields, values, data) == ChangedEntries(fields[..k], values, data)
    decreases |fields|
  {
    if |fields| == k {
      assert fields[..k] == fields;
    } else {
      var init := fields[..|fields| - 1];
      assert init[..k] == fields[..k];
      ChangedEntriesOfUnchangedTail(init, k, values, data);
    }
  }

  /** One line of a changed-field `onSubmit`: the field's entry is appended
      when there is no original record or the field changed, so a submission
      built over the fields `done` is then built over `done + [field]`. */
  method AppendIfChanged(fd: FormData, ghost done: seq<string>, field: string, values: Values, data: Option<Values>)
    returns (r: FormData)
    requires fd == ChangedEntries(done, values, data)
    ensures r == fd + (if Changed(field, values, data) then [(field, Get(values, field))] else [])
    ensures r == ChangedEntries(done + [field], values, data)
  {
    r := fd;
    if data.None? || Get(values, field) != Get(data.value, field) {
      r := r + [(field, Get(values, field))];
    }
    assert (done + [field])[..|done + [field]| - 1] == done;
  }

  /** Every field, with its value, in the order given. */
  function AllEntries(fields: seq<string>, values: Values): (r: FormData)
    ensures |r| == |fields|
    ensures forall i :: 0 <= i < |fields| ==> r[i] == (fields[i], Get(values, fields[i]))
  {
    seq(|fields|, i requires 0 <= i < |fields| => (fields[i], Get(values, fields[i])))
  }

  /** With no original record, every field is submitted, in order. */
  lemma {:induction false} ChangedEntriesWithoutData(fields: seq<string>, values: Values)
    ensures ChangedEntries(fields, values, None) == AllEntries(fields, values)
    decreases |fields|
  {
    if fields != [] {
      ChangedEntriesWithoutData(fields[..|fields| - 1], values);
    }
  }

  /** When exactly the first k fields changed, the submission is those k
      fields with the form's values, in order. */
  lemma {:induction false} ChangedEntriesOfChangedPrefix(fields: seq<string>, k: nat, values: Values, data: Option<Values>)
    requires k <= |fields|
    requires forall i :: 0 <= i < k ==> Changed(fields[i], values, data)
    requires forall i :: k <= i < |fields| ==> !Changed(fields[i], values, data)
    ensures ChangedEntries(fields, values, data) == AllEntries(fields[..k], values)
    decreases |fields|
  {
    if fields != [] {
      var init := fields[..|fields| - 1];
      var last := fields[|fields| - 1];
      if k < |fields| {
        assert init[..k] == fields[..k];
        ChangedEntriesOfChangedPrefix(init, k, values, data);
      } else {
        assert init[..k - 1] == init && fields[..k] == fields;
        ChangedEntriesOfChangedPrefix(init, k - 1, values, data);
        assert AllEntries(fields, values) == AllEntries(init, values) + [(last, Get(values, last))];
      }
    }
  }

  /** When exactly the first two fields changed, the submission is those two
      fields with the form's values. */
  lemma ChangedEntriesOfChangedPair(fields: seq<string>, values: Values, data: Option<Values>)
    requires |fields| >= 2
    requires Changed(fields[0], values, data) && Changed(fields[1], values, data)
    requires forall i :: 2 <= i < |fields| ==> !Changed(fields[i], values, data)
    ensures ChangedEntries(fields, values, data) ==
              [(fields[0], Get(values, fields[0])), (fields[1], Get(values, fields[1]))]
  {
    ChangedEntriesOfChangedPrefix(fields, 2, values, data);
    assert AllEntries(fields[..2], values) == [(fields[0], Get(values, fields[0])), (fields[1], Get(values, fields[1]))];
  }

  /** A field's entry is submitted exactly when the field is one of those
      listed and its value changed; the entry carries the form's value. */
  lemma {:induction false} ChangedEntriesMembership(fields: seq<string>, values: Values, data: Option<Values>, f: string, v: Value)
    ensures (f, v) in ChangedEntries(fields, values, data) <==>
            f in fields && v == Get(values, f) && Changed(f, values, data)
    decreases |fields|
  {
    if fields != [] {
      var init := fields[..|fields| - 1];
      ChangedEntriesMembership(init, values, data, f, v);
      assert fields == init + [fields[|fields| - 1]];
    }
  }

  /** The positions of the fields that changed: in increasing order, each
      a changed field, and every changed field among them. */
  function ChangedPositions(fields: seq<string>, values: Values, data: Option<Values>): (p: seq<nat>)
    ensures forall k :: 0 <= k < |p| ==> p[k] < |fields| && Changed(fields[p[k]], values, data)
    ensures forall k, l :: 0 <= k < l < |p| ==> p[k] < p[l]
    ensures forall i :: 0 <= i < |fields| && Changed(fields[i], values, data) ==> i in p
    decreases |fields|
  {
    if fields == [] then []
    else
      var n := |fields| - 1;
      var init := fields[..n];
      assert forall i :: 0 <= i < n ==> init[i] == fields[i];
      ChangedPositions(init, values, data) + (if Changed(fields[n], values, data) then [n] else [])
  }

  /** The submission is the subsequence of the changed fields: entry k is
      the field at the k-th changed position, carrying the form's value. */
  lemma {:induction false} ChangedEntriesOrdered(fields: seq<string>, values: Values, data: Option<Values>)
    ensures |ChangedPositions(fields, values, data)| == |ChangedEntries(fields, values, data)|
    ensures forall k :: 0 <= k < |ChangedPositions(fields, values, data)| ==>
              ChangedEntries(fields, values, data)[k] ==
              (fields[ChangedPositions(fields, values, data)[k]], Get(values, fields[ChangedPositions(fields, values, data)[k]]))
    decreases |fields|
  {
    if fields != [] {
      var n := |fields| - 1;
      var init := fields[..n];
      ChangedEntriesOrdered(init, values, data);
      var p0, r0 := ChangedPositions(init, values, data), ChangedEntries(init, values, data);
      var p, r := ChangedPositions(fields, values, data), ChangedEntries(fields, values, data);
      var c := Changed(fields[n], values, data);
      assert p == p0 + (if c then [n] else []);
      assert r == r0 + (if c then [(fields[n], Get(values, fields[n]))] else []);
      forall k | 0 <= k < |p|
        ensures r[k] == (fields[p[k]], Get(values, fields[p[k]]))
      {
        if k < |p0| {
          assert p[k] == p0[k] && r[k] == r0[k] && fields[p0[k]] == init[p0[k]];
        }
      }
    }
  }

  // ---------------------------------------------------------------------------
  // Form state of a modal

  /** The alert a modal shows when a request fails for any reason other than
      a validation error of the server. */
  const GENERIC_ALERT: string := "Əməliyyat zamanı xəta baş verdi!"

  /** The HTTP status with which the server reports per-field errors. */
  const BAD_REQUEST: int := 400

  /** The form state of one open modal: the form's values and field errors
      (held by the form library) and the modal's alert text. */
  class ModalForm {
    const initialValues: Values
    var values: Values
    var errors: map<string, string>
    var alertError: string

    constructor (init: Values)
      ensures initialValues == init && values == init
      ensures errors == map[] && alertError == ""
    {
      initialValues := init;
      values := init;
      errors := map[];
      alertError := "";
    }

    /** `setFieldValue(name, v)`, and equally a direct write `values[name] = v`. */
    method SetFieldValue(name: string, v: Value)
      modifies this
      ensures values == old(values)[name := v]
      ensures errors == old(errors) && alertError == old(alertError)
    {
      values := values[name := v];
    }

    /** Choosing an option in a select: a falsy choice (no option) is ignored. */
    method Select(field: string, choice: Value)
      modifies this
      ensures values == if Truthy(choice) then old(values)[field := choice] else old(values)
      ensures errors == old(errors) && alertError == old(alertError)
    {
      if Truthy(choice) {
        SetFieldValue(field, choice);
      }
    }

    /** Choosing an option in a select that another field depends on (a
        branch and its seller): a falsy choice is ignored; otherwise the
        field takes the choice and, when the choice differs from the
        previous value, the form's effect on that field clears the
        dependent field. */
    method SelectWithDependent(field: string, dependent: string, choice: Value)
      requires field != dependent
      modifies this
      ensures !Truthy(choice) ==> values == old(values)
      ensures Truthy(choice) && choice != Get(old(values), field) ==>
                values == old(values)[field := choice][dependent := Str("")]
      ensures Truthy(choice) && choice == Get(old(values), field) ==>
                values == old(values)[field := choice]
      ensures Truthy(choice) ==> Get(values, field) == choice
      ensures errors == old(errors) && alertError == old(alertError)
    {
      if Truthy(choice) {
        var previous := Get(values, field);
        SetFieldValue(field, choice);
        if choice != previous {
          SetFieldValue(dependent, Str(""));
        }
      }
    }

    /** `resetForm()`: values back to the initial ones, no field errors. */
    method ResetForm()
      modifies this
      ensures values == initialValues && errors == map[]
      ensures alertError == old(alertError)
    {
      values := initialValues;
      errors := map[];
    }

    /** The failure effect every modal runs when the store's errors change:
        while the modal is open and the request failed, a 400 answer lays the
        server's field messages over the current ones, and any other failure
        shows the generic alert. */
    method OnErrorsChanged(show: bool, status: Status, err: Option<ServerError>)
      modifies this
      ensures values == old(values)
      ensures show && status.failure && err.Some? && err.value.code == BAD_REQUEST ==>
                errors == old(errors) + err.value.data && alertError == old(alertError)
      ensures show && status.failure && !(err.Some? && err.value.code == BAD_REQUEST) ==>
                errors == old(errors) && alertError == GENERIC_ALERT
      ensures !(show && status.failure) ==> errors == old(errors) && alertError == old(alertError)
    {
      if show && status.failure {
        if err.Some? && err.value.code == BAD_REQUEST {
          errors := errors + err.value.data;
        } else {
          alertError := GENERIC_ALERT;
        }
      }
    }

    /** The success effect every modal runs when the store's status changes:
        while the modal is open, a success of the request the modal expects
        resets the form and asks the parent to close the modal. */
    method OnStatusChanged(show: bool, status: Status, expected: Thunk) returns (close: bool)
      modifies this
      ensures close <==> show && status.lastAction == Some(expected) && status.success
      ensures close ==> values == initialValues && errors == map[]
      ensures !close ==> values == old(values) && errors == old(errors)
      ensures alertError == old(alertError)
    {
      close := show && status.lastAction == Some(expected) && status.success;
      if close {
        ResetForm();
      }
    }
  }

  /** The request an edit/create modal waits for: the update when editing,
      the create otherwise. */
  function ExpectedAction(isEdit: bool, create: Thunk, update: Thunk): (t: Thunk)
    ensures isEdit ==> t == update
    ensures !isEdit ==> t == create
  {
    if isEdit then update else create
  }
}
