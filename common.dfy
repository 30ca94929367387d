/** Shared vocabulary of the dashboard model: optional values, the loosely typed
    values that forms and API records hold, the users the pages look at, the
    request-status record every store slice keeps, the log of dispatched
    requests, and the left fold that every money roll-up uses. */
module Common {

  datatype Option<+T> = None | Some(value: T)

  /** `Number(x || 0)` for an amount the API may leave out: a missing amount counts as 0. */
  function OrZero(x: Option<int>): int {
    match x
    case None => 0
    case Some(n) => n
  }

  /** A value held by a form field or by a field of an API record.
      `Nil` is JavaScript's null/undefined, `Str` a string, `Num` a number
      (an integer: money is counted in cents) and `Ref` a nested record
      such as `data.branch`, of which only its id and name are kept. */
  datatype Value = Nil | Str(s: string) | Num(n: int) | Ref(id: int, name: string)

  /** JavaScript truthiness of a value. */
  predicate Truthy(v: Value) {
    match v
    case Nil => false
    case Str(s) => s != ""
    case Num(n) => n != 0
    case Ref(_, _) => true
  }

  /** JavaScript's `a || b`. */
  function Or(a: Value, b: Value): Value {
    if Truthy(a) then a else b
  }

  /** `Number(v || 0)` for a number field: a field left empty counts as 0.
      Text is not parsed: in a number field Formik holds a number. */
  function NumberOr0(v: Value): int {
    if v.Num? then v.n else 0
  }

  /** `.id` of a nested record, short-circuiting to a falsy value when the
      record is missing (`data && data.branch && data.branch.id`). */
  function IdOf(v: Value): Value {
    if v.Ref? then Num(v.id) else Nil
  }

  /** A record of named values: form values, or an API record such as `data`. */
  type Values = map<string, Value>

  /** `record[key]`: a key the record lacks reads as undefined. */
  function Get(m: Values, key: string): Value {
    if key in m then m[key] else Nil
  }

  /** `data`, read as a record with no fields when there is none. */
  function OrEmpty(data: Option<Values>): Values {
    if data.Some? then data.value else map[]
  }

  /** The entries appended to a multipart FormData, in order. */
  type FormData = seq<(string, Value)>

  /** The user kinds the pages test against; only STORE users are told apart. */
  datatype Role = Store | OtherRole

  datatype User = User(role: Role, branchId: int, branchName: string)

  /** `user?.type === STORE`: no user is not a STORE user. */
  predicate IsStore(user: Option<User>) {
    user.Some? && user.value.role == Store
  }

  /** The asynchronous requests (thunks) of the store that the modelled pages
      dispatch or whose name they read back from `status.lastAction`. */
  datatype Thunk =
    | GetOrders | GetOrderDetails | CreateOrder | UpdateOrder | DeleteOrder
    | CreateOrderCartItem | UpdateOrderCartItem | DeleteOrderCartItem
    | CreateFactoryProduct | UpdateFactoryProduct | DeleteFactoryProduct
    | CreateFactorySale | UpdateFactorySale
    | CreateExpense | UpdateExpense
    | GetWarehouseItems | GetWarehouseItemStats | GetWarehouseItemAllStats

  /** The request status every slice keeps. */
  datatype Status = Status(loading: bool, success: bool, failure: bool, lastAction: Option<Thunk>)

  const IDLE: Status := Status(false, false, false, None)

  /** `{ ...LOADING, lastAction }`, `{ ...SUCCESS, lastAction }`, `{ ...FAILURE, lastAction }`:
      each of the three constants sets its own flag alone. */
  function Loading(a: Thunk): Status { Status(true, false, false, Some(a)) }
  function Succeeded(a: Thunk): Status { Status(false, true, false, Some(a)) }
  function Failed(a: Thunk): Status { Status(false, false, true, Some(a)) }

  /** At most one of the three flags is set. */
  predicate OneFlagAtMost(s: Status) {
    (s.loading ==> !s.success && !s.failure) && (s.success ==> !s.failure)
  }

  /** The error payload a rejected request carries: the HTTP status and the
      per-field messages of the server. */
  datatype ServerError = ServerError(code: int, data: map<string, string>)

  /** One dispatched request, as the pages issue them. */
  datatype Dispatch =
    | Create(thunk: Thunk, data: FormData)
    | Update(thunk: Thunk, id: int, data: FormData)
    | Delete(thunk: Thunk, id: int)

  /** `xs.reduce((a, b) => a + f(b), 0)`: a left fold, last element added last. */
  function Sum<T>(xs: seq<T>, f: T -> int): int
    decreases |xs|
  {
    if xs == [] then 0 else Sum(xs[..|xs| - 1], f) + f(xs[|xs| - 1])
  }

  /** Summing a concatenation sums the parts. */
  lemma {:induction false} SumAppend<T>(a: seq<T>, b: seq<T>, f: T -> int)
    ensures Sum(a + b, f) == Sum(a, f) + Sum(b, f)
    decreases |b|
  {
    if b == [] {
      assert a + b == a;
    } else {
      var b' := b[..|b| - 1];
      assert (a + b)[..|a + b| - 1] == a + b';
      assert (a + b)[|a + b| - 1] == b[|b| - 1];
      SumAppend(a, b', f);
    }
  }

  /** The left fold agrees with the head-first reading of the sum. */
  lemma {:induction false} SumCons<T>(x: T, xs: seq<T>, f: T -> int)
    ensures Sum([x] + xs, f) == f(x) + Sum(xs, f)
  {
    SumAppend([x], xs, f);
    assert [x][..0] == [];
  }

  /** A sum of terms that are all non-negative is non-negative, and a sum of
      terms that are all zero is zero. */
  lemma SumBounds<T>(xs: seq<T>, f: T -> int)
    ensures (forall i :: 0 <= i < |xs| ==> f(xs[i]) >= 0) ==> Sum(xs, f) >= 0
    ensures (forall i :: 0 <= i < |xs| ==> f(xs[i]) == 0) ==> Sum(xs, f) == 0
  {
    if forall i :: 0 <= i < |xs| ==> f(xs[i]) >= 0 {
      SumNonNegative(xs, f);
    }
    if forall i :: 0 <= i < |xs| ==> f(xs[i]) == 0 {
      SumZero(xs, f);
    }
  }

  /** A sum of zero terms is zero. */
  lemma {:induction false} SumZero<T>(xs: seq<T>, f: T -> int)
    requires forall i :: 0 <= i < |xs| ==> f(xs[i]) == 0
    ensures Sum(xs, f) == 0
    decreases |xs|
  {
    if xs != [] {
      var xs' := xs[..|xs| - 1];
      assert forall i :: 0 <= i < |xs'| ==> xs'[i] == xs[i];
      SumZero(xs', f);
    }
  }

  /** A sum of non-negative terms is non-negative. */
  lemma {:induction false} SumNonNegative<T>(xs: seq<T>, f: T -> int)
    requires forall i :: 0 <= i < |xs| ==> f(xs[i]) >= 0
    ensures Sum(xs, f) >= 0
    decreases |xs|
  {
    if xs != [] {
      var xs' := xs[..|xs| - 1];
      assert forall i :: 0 <= i < |xs'| ==> xs'[i] == xs[i];
      SumNonNegative(xs', f);
    }
  }
}
