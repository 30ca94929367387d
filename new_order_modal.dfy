/** The modal that opens a new sale: its initial values, its schema, the
    form data it submits, the branch/seller selects, the cart total and the
    debt it shows, and its success and failure effects. */
module NewOrderModal {
  import opened Common
  import opened Forms
  import opened OrderCart

  /** The fields of the form, in the order the submission appends them. */
  const FIELDS: seq<string> := ["branch", "seller", "customer", "phone", "address", "payed",
                                "seller_share", "sale_date", "delivery_date", "install_date", "note"]

  /** The branch a new sale starts with: the user's own branch for a STORE
      user (`user.type === STORE && user.branch.id`), otherwise none (""). */
  function DefaultBranch(user: Option<User>): (r: Value)
    ensures IsStore(user) && user.value.branchId != 0 ==> r == Num(user.value.branchId)
    ensures !(IsStore(user) && user.value.branchId != 0) ==> r == Str("")
  {
    Or(if IsStore(user) then Num(user.value.branchId) else Nil, Str(""))
  }

  /** The initial values: the default branch, today's date as the sale date,
      and "" in every other field. */
  function InitialValues(user: Option<User>, today: string): (r: Values)
    ensures r.Keys == set f | f in FIELDS
    ensures Get(r, "branch") == DefaultBranch(user) && Get(r, "sale_date") == Str(today)
    ensures forall f :: f in FIELDS && f != "branch" && f != "sale_date" ==> Get(r, f) == Str("")
  {
    map["branch" := DefaultBranch(user), "seller" := Str(""), "customer" := Str(""),
        "phone" := Str(""), "address" := Str(""), "payed" := Str(""), "seller_share" := Str(""),
        "sale_date" := Str(today), "delivery_date" := Str(""), "install_date" := Str(""),
        "note" := Str("")]
  }

  /** The validation schema of the form. */
  const SCHEMA: Schema := [
    Rule("branch", Number, true, None, None),
    Rule("seller", Number, true, None, None),
    Rule("customer", Text, true, None, None),
    Rule("phone", Text, true, None, None),
    Rule("address", Text, true, None, None),
    Rule("payed", Number, true, None, None),
    Rule("seller_share", Number, false, None, None),
    Rule("sale_date", Text, true, None, None),
    Rule("delivery_date", Text, false, None, None),
    Rule("install_date", Text, false, None, None),
    Rule("note", Text, false, None, None)
  ]

  /** The schema accepts the values exactly when a branch, a seller and the
      amount paid are numbers, the customer, phone, address and sale date are
      filled in, the seller's share is a number or left empty, and no text
      field holds a nested record. */
  lemma AcceptedMeans(values: Values)
    ensures Accepted(SCHEMA, values) <==>
              Get(values, "branch").Num? && Get(values, "seller").Num? &&
              !Empty(Get(values, "customer")) && !Get(values, "customer").Ref? &&
              !Empty(Get(values, "phone")) && !Get(values, "phone").Ref? &&
              !Empty(Get(values, "address")) && !Get(values, "address").Ref? &&
              Get(values, "payed").Num? &&
              (Empty(Get(values, "seller_share")) || Get(values, "seller_share").Num?) &&
              !Empty(Get(values, "sale_date")) && !Get(values, "sale_date").Ref? &&
              !Get(values, "delivery_date").Ref? && !Get(values, "install_date").Ref? &&
              !Get(values, "note").Ref?
  {
    AcceptedByRules(SCHEMA[0..], values);
    CheckMeans(SCHEMA[0], Get(values, SCHEMA[0].field));
    AcceptedByRules(SCHEMA[1..], values);
    CheckMeans(SCHEMA[1], Get(values, SCHEMA[1].field));
    AcceptedByRules(SCHEMA[2..], values);
    CheckMeans(SCHEMA[2], Get(values, SCHEMA[2].field));
    AcceptedByRules(SCHEMA[3..], values);
    CheckMeans(SCHEMA[3], Get(values, SCHEMA[3].field));
    AcceptedByRules(SCHEMA[4..], values);
    CheckMeans(SCHEMA[4], Get(values, SCHEMA[4].field));
    AcceptedByRules(SCHEMA[5..], values);
    CheckMeans(SCHEMA[5], Get(values, SCHEMA[5].field));
    AcceptedByRules(SCHEMA[6..], values);
    CheckMeans(SCHEMA[6], Get(values, SCHEMA[6].field));
    AcceptedByRules(SCHEMA[7..], values);
    CheckMeans(SCHEMA[7], Get(values, SCHEMA[7].field));
    AcceptedByRules(SCHEMA[8..], values);
    CheckMeans(SCHEMA[8], Get(values, SCHEMA[8].field));
    AcceptedByRules(SCHEMA[9..], values);
    CheckMeans(SCHEMA[9], Get(values, SCHEMA[9].field));
    AcceptedByRules(SCHEMA[10..], values);
    CheckMeans(SCHEMA[10], Get(values, SCHEMA[10].field));
    AcceptedByRules(SCHEMA[11..], values);
  }

  /** The schema lists exactly the submitted fields, in the same order. */
  lemma SchemaCoversSubmission()
    ensures FieldsOf(SCHEMA) == FIELDS
  {
    var r := FieldsOf(SCHEMA);
    assert forall i :: 0 <= i < |r| ==> r[i] == FIELDS[i];
  }

  /** `onSubmit`: every field is appended, in order, whatever its value; the
      page then dispatches the create request with this form data. */
  method Submit(values: Values) returns (fd: FormData)
    ensures fd == AllEntries(FIELDS, values)
    ensures fd == ChangedEntries(FIELDS, values, None)
  {
    fd := [];
    fd := fd + [("branch", Get(values, "branch"))];
    fd := fd + [("seller", Get(values, "seller"))];
    fd := fd + [("customer", Get(values, "customer"))];
    fd := fd + [("phone", Get(values, "phone"))];
    fd := fd + [("address", Get(values, "address"))];
    fd := fd + [("payed", Get(values, "payed"))];
    fd := fd + [("seller_share", Get(values, "seller_share"))];
    fd := fd + [("sale_date", Get(values, "sale_date"))];
    fd := fd + [("delivery_date", Get(values, "delivery_date"))];
    fd := fd + [("install_date", Get(values, "install_date"))];
    fd := fd + [("note", Get(values, "note"))];
    ChangedEntriesWithoutData(FIELDS, values);
  }

  /** The branch select is locked for a STORE user. */
  predicate BranchSelectDisabled(user: Option<User>) {
    IsStore(user)
  }

  /** The seller select is locked until a branch is chosen. */
  predicate SellerSelectDisabled(values: Values) {
    !Truthy(Get(values, "branch"))
  }

  /** A STORE user with a branch opens the form on their own branch, cannot
      change it, and can pick a seller straight away. */
  lemma StoreUserStartsOnOwnBranch(user: Option<User>, today: string)
    requires IsStore(user) && user.value.branchId != 0
    ensures Get(InitialValues(user, today), "branch") == Num(user.value.branchId)
    ensures BranchSelectDisabled(user)
    ensures !SellerSelectDisabled(InitialValues(user, today))
  {
  }

  /** Any other user starts with no branch and so with the seller select locked. */
  lemma OtherUserStartsWithoutBranch(user: Option<User>, today: string)
    requires !IsStore(user)
    ensures Get(InitialValues(user, today), "branch") == Str("")
    ensures !BranchSelectDisabled(user)
    ensures SellerSelectDisabled(InitialValues(user, today))
  {
  }

  /** Choosing a branch: a falsy choice is ignored; otherwise the branch is
      set and, when it differs from the previous one, the seller, who
      belongs to the previous branch, is cleared. */
  method SelectBranch(f: ModalForm, choice: Value)
    modifies f
    ensures !Truthy(choice) ==> f.values == old(f.values)
    ensures Truthy(choice) && choice != Get(old(f.values), "branch") ==>
              f.values == old(f.values)["branch" := choice]["seller" := Str("")]
    ensures Truthy(choice) && choice == Get(old(f.values), "branch") ==>
              f.values == old(f.values)["branch" := choice]
    ensures Truthy(choice) ==> !SellerSelectDisabled(f.values)
    ensures f.errors == old(f.errors) && f.alertError == old(f.alertError)
  {
    f.SelectWithDependent("branch", "seller", choice);
  }

  /** Typing an installation date also writes "" to a `worker` field the
      form does not otherwise have. */
  method ChangeInstallDate(f: ModalForm, v: Value)
    modifies f
    ensures f.values == old(f.values)["worker" := Str("")]["install_date" := v]
    ensures f.errors == old(f.errors) && f.alertError == old(f.alertError)
  {
    f.SetFieldValue("worker", Str(""));
    f.SetFieldValue("install_date", v);
  }

  /** The stray `worker` field never reaches the submission. */
  lemma WorkerIsNeverSubmitted(values: Values, v: Value)
    ensures ("worker", v) !in ChangedEntries(FIELDS, values, None)
  {
    ChangedEntriesMembership(FIELDS, values, None, "worker", v);
  }

  /** The debt field: the total price less the amount paid; an empty amount
      paid leaves the whole total as debt. */
  function DebtShown(priceSum: int, payed: Value): (r: int)
    ensures Empty(payed) ==> r == priceSum
    ensures payed.Num? ==> r + payed.n == priceSum
  {
    priceSum - NumberOr0(payed)
  }

  /** The total price the form shows, which its effect on the cart updates. */
  class CartTotal {
    var priceSum: int

    constructor ()
      ensures priceSum == 0
    {
      priceSum := 0;
    }

    /** The effect on the cart as written: the total is recomputed only when
        the cart has at least one line, so emptying the cart leaves the
        previous total on screen. */
    method OnItemsChanged(items: Option<seq<CartItem>>)
      modifies this
      ensures items.Some? && items.value != [] ==> priceSum == CartSum(items.value)
      ensures !(items.Some? && items.value != []) ==> priceSum == old(priceSum)
    {
      if items.Some? && |items.value| > 0 {
        priceSum := CartSum(items.value);
      }
    }

    /** The effect as intended: the total always matches the cart, an empty
        or missing cart showing 0. */
    method Recompute(items: Option<seq<CartItem>>)
      modifies this
      ensures priceSum == CartSum(if items.Some? then items.value else [])
    {
      if items.Some? {
        priceSum := CartSum(items.value);
      } else {
        priceSum := 0;
      }
    }
  }

  /** Removing the last line of a one-line cart leaves the total of the
      removed line on screen under the effect as written, while the cart's
      own total is 0. */
  method StaleTotalAfterEmptyingCart() returns (shown: int, actual: int)
    ensures shown == 5000 && actual == 0
  {
    var line := CartItem(1, Ref(7, "Divan"), Ref(3, "Supplier"), "", Some(2500), Some(2));
    var t := new CartTotal();
    t.OnItemsChanged(Some([line]));
    t.OnItemsChanged(Some([]));
    shown := t.priceSum;
    actual := CartSum([]);
  }

  /** With the intended effect the total, and so the debt, always follow the
      cart: after any sequence of cart changes they depend on the last cart only. */
  method RecomputeFollowsCart(first: seq<CartItem>, last: seq<CartItem>, payed: Value) returns (debt: int)
    ensures debt == CartSum(last) - NumberOr0(payed)
  {
    var t := new CartTotal();
    t.Recompute(Some(first));
    t.Recompute(Some(last));
    debt := DebtShown(t.priceSum, payed);
  }

  /** The success effect: the form is reset and closed once the create
      request it sent has succeeded. */
  method OnStatusChanged(f: ModalForm, show: bool, status: Status) returns (close: bool)
    modifies f
    ensures close <==> show && status.success && status.lastAction == Some(CreateOrder)
    ensures close ==> f.values == f.initialValues && f.errors == map[]
    ensures !close ==> f.values == old(f.values) && f.errors == old(f.errors)
  {
    close := f.OnStatusChanged(show, status, CreateOrder);
  }
}
